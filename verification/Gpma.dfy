/** The packed-memory array: compaction of a node, merging with new pairs, even redispatch to the leaf
    segments, and the search for the leaf of a key. */
module Gpma {
  import opened GpmaMath
  import opened Powers

  const KEY_NONE: nat := 0xFFFF_FFFF_FFFF_FFFF
  const VALUE_NONE: nat := 0

  datatype Cell = Cell(key: nat, value: nat)
  {
    predicate Live() { key != KEY_NONE && value != VALUE_NONE }
  }

  /** The live cells in order. */
  function Live(cells: seq<Cell>): (r: seq<Cell>)
    ensures |r| <= |cells|
  {
    if cells == [] then []
    else if cells[0].Live() then [cells[0]] + Live(cells[1..])
    else Live(cells[1..])
  }

  lemma {:induction false} LiveConcat(a: seq<Cell>, b: seq<Cell>)
    ensures Live(a + b) == Live(a) + Live(b)
    decreases |a|
  {
    if a == [] {
      assert a + b == b;
    } else {
      LiveConcat(a[1..], b);
      assert (a + b)[1..] == a[1..] + b && (a + b)[0] == a[0];
      assert a[0].Live() ==> [a[0]] + (Live(a[1..]) + Live(b)) == [a[0]] + Live(a[1..]) + Live(b);
    }
  }

  lemma {:induction false} AllLive(cells: seq<Cell>)
    requires forall i :: 0 <= i < |cells| ==> cells[i].Live()
    ensures Live(cells) == cells
    decreases |cells|
  {
    if cells != [] { AllLive(cells[1..]); }
  }

  lemma {:induction false} NoneLive(cells: seq<Cell>)
    requires forall i :: 0 <= i < |cells| ==> !cells[i].Live()
    ensures Live(cells) == []
    decreases |cells|
  {
    if cells != [] { NoneLive(cells[1..]); }
  }

  lemma {:induction false} LiveAreLive(cells: seq<Cell>)
    ensures forall i :: 0 <= i < |Live(cells)| ==> Live(cells)[i].Live()
    ensures multiset(Live(cells)) <= multiset(cells)
    decreases |cells|
  {
    if cells != [] {
      LiveAreLive(cells[1..]);
      assert cells == [cells[0]] + cells[1..];
    }
  }

  // ---- Compaction ----

  /** Exclusive prefix counts of the live cells. */
  method ExclusiveSum(cells: seq<Cell>) returns (exscan: seq<nat>)
    ensures |exscan| == |cells| && forall i :: 0 <= i < |cells| ==> exscan[i] == |Live(cells[..i])|
  {
    exscan := [];
    var sum := 0;
    for i := 0 to |cells|
      invariant |exscan| == i && sum == |Live(cells[..i])|
      invariant forall k :: 0 <= k < i ==> exscan[k] == |Live(cells[..k])|
    {
      LiveNext(cells, i);
      exscan := exscan + [sum];
      if cells[i].Live() { sum := sum + 1; }
    }
  }

  lemma LiveNext(cells: seq<Cell>, i: nat)
    requires i < |cells|
    ensures Live(cells[..i + 1]) == Live(cells[..i]) + (if cells[i].Live() then [cells[i]] else [])
  {
    assert cells[..i + 1] == cells[..i] + [cells[i]];
    LiveConcat(cells[..i], [cells[i]]);
    assert Live([cells[i]]) == if cells[i].Live() then [cells[i]] else [];
  }

  /** Moves the live cells of a node to its front and clears the keys behind them. */
  method Compact(cells: array<Cell>, node: nat, width: nat) returns (compacted: nat)
    requires node + width <= cells.Length
    modifies cells
    ensures compacted == |Live(old(cells[node..node + width]))|
    ensures cells[node..node + compacted] == Live(old(cells[node..node + width]))
    ensures forall i :: node + compacted <= i < node + width ==> cells[i].key == KEY_NONE
    ensures forall i :: 0 <= i < node || node + width <= i < cells.Length ==> cells[i] == old(cells[i])
  {
    var thread := cells[node..node + width];
    var exscan := ExclusiveSum(thread);
    ClearKeys(cells, node, width);
    compacted := Scatter(cells, node, thread, exscan);
  }

  /** Writes the live cells to their ranks in a cleared node. */
  method Scatter(cells: array<Cell>, node: nat, thread: seq<Cell>, exscan: seq<nat>) returns (compacted: nat)
    requires node + |thread| <= cells.Length && forall i :: node <= i < node + |thread| ==> cells[i].key == KEY_NONE
    requires |exscan| == |thread| && forall i :: 0 <= i < |thread| ==> exscan[i] == |Live(thread[..i])|
    modifies cells
    ensures compacted == |Live(thread)| && cells[node..node + compacted] == Live(thread)
    ensures forall i :: node + compacted <= i < node + |thread| ==> cells[i].key == KEY_NONE
    ensures forall i :: 0 <= i < node || node + |thread| <= i < cells.Length ==> cells[i] == old(cells[i])
  {
    compacted := 0;
    for i := 0 to |thread|
      invariant compacted == |Live(thread[..i])| <= i
      invariant cells[node..node + compacted] == Live(thread[..i])
      invariant forall k :: node + compacted <= k < node + |thread| ==> cells[k].key == KEY_NONE
      invariant forall k :: 0 <= k < node || node + |thread| <= k < cells.Length ==> cells[k] == old(cells[k])
    {
      LiveNext(thread, i);
      if thread[i].Live() {
        compacted := Keep(cells, node, exscan[i], thread[i]);
      }
    }
    assert thread[..|thread|] == thread;
  }

  /** Appends a cell to the `loc` cells kept so far. */
  method Keep(cells: array<Cell>, node: nat, loc: nat, cell: Cell) returns (compacted: nat)
    requires node + loc < cells.Length
    modifies cells
    ensures compacted == loc + 1 && cells[node..node + compacted] == old(cells[node..node + loc]) + [cell]
    ensures forall i :: 0 <= i < cells.Length && i != node + loc ==> cells[i] == old(cells[i])
  {
    cells[node + loc] := cell;
    compacted := loc + 1;
  }

  method ClearKeys(cells: array<Cell>, node: nat, width: nat)
    requires node + width <= cells.Length
    modifies cells
    ensures forall i :: node <= i < node + width ==> cells[i] == old(cells[i]).(key := KEY_NONE)
    ensures forall i :: 0 <= i < node || node + width <= i < cells.Length ==> cells[i] == old(cells[i])
  {
    for i := 0 to width
      invariant forall k :: node <= k < node + i ==> cells[k] == old(cells[k]).(key := KEY_NONE)
      invariant forall k :: 0 <= k < node || node + i <= k < cells.Length ==> cells[k] == old(cells[k])
    {
      cells[node + i] := cells[node + i].(key := KEY_NONE);
    }
  }

  // ---- Sorting ----

  ghost predicate SortedByKey(cells: seq<Cell>) {
    forall i, j :: 0 <= i < j < |cells| ==> cells[i].key <= cells[j].key
  }

  /** Stable insertion before the first larger key. */
  function Insert(sorted: seq<Cell>, c: Cell): seq<Cell> {
    if sorted == [] || c.key < sorted[0].key then [c] + sorted else [sorted[0]] + Insert(sorted[1..], c)
  }

  lemma {:induction false} InsertContents(sorted: seq<Cell>, c: Cell)
    ensures multiset(Insert(sorted, c)) == multiset(sorted) + multiset{c}
    decreases |sorted|
  {
    if sorted == [] || c.key < sorted[0].key {
    } else {
      InsertContents(sorted[1..], c);
      assert sorted == [sorted[0]] + sorted[1..];
    }
  }

  lemma {:induction false} InsertSorts(sorted: seq<Cell>, c: Cell)
    requires SortedByKey(sorted)
    ensures SortedByKey(Insert(sorted, c))
    decreases |sorted|
  {
    if sorted == [] || c.key < sorted[0].key {
    } else {
      InsertSorts(sorted[1..], c);
      InsertContents(sorted[1..], c);
      var r := Insert(sorted[1..], c);
      forall j | 0 <= j < |r|
        ensures sorted[0].key <= r[j].key
      {
        assert r[j] in multiset(r);
        assert r[j] == c || r[j] in sorted[1..];
      }
    }
  }

  method SortPairs(cells: seq<Cell>) returns (sorted: seq<Cell>)
    ensures SortedByKey(sorted) && multiset(sorted) == multiset(cells) && |sorted| == |cells|
  {
    sorted := [];
    for i := 0 to |cells|
      invariant SortedByKey(sorted) && multiset(sorted) == multiset(cells[..i])
    {
      InsertSorts(sorted, cells[i]);
      InsertContents(sorted, cells[i]);
      assert cells[..i + 1] == cells[..i] + [cells[i]];
      sorted := Insert(sorted, cells[i]);
    }
    assert cells[..|cells|] == cells;
    assert |multiset(sorted)| == |sorted|;
  }

  // ---- Redispatch ----

  /** Slot `t` of segment `s` holds its key, or is free. */
  ghost predicate SlotHolds(cell: Cell, sorted: seq<Cell>, frac: nat, s: nat, t: nat)
    requires frac > 0
  {
    var at := Cut(frac, |sorted|, s) + t;
    if at < Cut(frac, |sorted|, s + 1) then at < |sorted| && cell == sorted[at] else cell.key == KEY_NONE
  }

  /** The place of slot `t` of segment `s`. */
  function Slot(s: nat, segLength: nat, t: nat): nat { s * segLength + t }

  /** The node holds `sorted`, every segment filled from its first slot. */
  ghost predicate Dealt(cells: seq<Cell>, sorted: seq<Cell>, frac: nat, segLength: nat)
    requires frac > 0
  {
    forall s, t :: 0 <= s < frac && 0 <= t < segLength ==>
      Slot(s, segLength, t) < |cells| && SlotHolds(cells[Slot(s, segLength, t)], sorted, frac, s, t)
  }

  lemma SlotInside(s: nat, segLength: nat, t: nat, frac: nat)
    requires s < frac && t < segLength
    ensures Slot(s, segLength, t) < frac * segLength
    ensures Slot(s, segLength, t) / segLength == s && Slot(s, segLength, t) % segLength == t
  {
    LessTimes(segLength, s + 1, frac);
    Quotient(Slot(s, segLength, t), segLength, s);
  }

  /** Segment `s` of a dealt node has the keys between its cuts. */
  lemma SegmentLive(cells: seq<Cell>, sorted: seq<Cell>, frac: nat, segLength: nat, s: nat)
    requires frac > 0 && s < frac && Slot(s + 1, segLength, 0) <= |cells|
    requires Dealt(cells, sorted, frac, segLength) && |sorted| <= frac * segLength
    requires forall i :: 0 <= i < |sorted| ==> sorted[i].Live()
    ensures Slot(s, segLength, 0) <= Slot(s + 1, segLength, 0)
    ensures Cut(frac, |sorted|, s) <= Cut(frac, |sorted|, s + 1) <= |sorted|
    ensures Live(cells[Slot(s, segLength, 0)..Slot(s + 1, segLength, 0)]) == sorted[Cut(frac, |sorted|, s)..Cut(frac, |sorted|, s + 1)]
  {
    var from, lo, hi := Slot(s, segLength, 0), Cut(frac, |sorted|, s), Cut(frac, |sorted|, s + 1);
    CutsAscend(frac, |sorted|, segLength, s);
    var seg := cells[from..Slot(s + 1, segLength, 0)];
    assert Slot(s + 1, segLength, 0) == from + segLength;
    forall t | 0 <= t < segLength
      ensures SlotHolds(seg[t], sorted, frac, s, t)
    {
      assert Slot(s, segLength, t) == from + t;
    }
    var n := hi - lo;
    assert seg == seg[..n] + seg[n..];
    assert seg[..n] == sorted[lo..hi];
    LiveConcat(seg[..n], seg[n..]);
    AllLive(seg[..n]);
    NoneLive(seg[n..]);
  }

  /** Cuts ascend, by at most a segment's length when the keys fit into the node. */
  lemma CutsAscend(frac: nat, size: nat, segLength: nat, s: nat)
    requires frac > 0 && s < frac && size <= frac * segLength
    ensures Cut(frac, size, s) <= Cut(frac, size, s + 1) <= Cut(frac, size, s) + segLength
    ensures Cut(frac, size, s + 1) <= size
  {
    EvenShare(frac, size, s, 1, 0, segLength);
    CutEnds(frac, size);
    CutMonotone(frac, size, s + 1, frac);
  }

  lemma CutMonotone(frac: nat, size: nat, s: nat, t: nat)
    requires frac > 0 && s <= t
    ensures Cut(frac, size, s) <= Cut(frac, size, t)
  {
    CutBounds(frac, size, s);
    CutBounds(frac, size, t);
    LessTimes(size, s, t);
    Distribute(frac, Cut(frac, size, t), 1);
    Cancel(frac, Cut(frac, size, s), Cut(frac, size, t) + 1);
  }

  /** A dealt node holds exactly the keys that were dealt, in order. */
  lemma {:induction false} DealtLive(cells: seq<Cell>, sorted: seq<Cell>, frac: nat, segLength: nat, k: nat)
    requires frac > 0 && k <= frac && |cells| == frac * segLength
    requires Dealt(cells, sorted, frac, segLength) && |sorted| <= frac * segLength
    requires forall i :: 0 <= i < |sorted| ==> sorted[i].Live()
    ensures Slot(k, segLength, 0) <= |cells| && Cut(frac, |sorted|, k) <= |sorted|
    ensures Live(cells[..Slot(k, segLength, 0)]) == sorted[..Cut(frac, |sorted|, k)]
    decreases k
  {
    CutEnds(frac, |sorted|);
    if k > 0 {
      LessTimes(segLength, k, frac);
      DealtLive(cells, sorted, frac, segLength, k - 1);
      SegmentLive(cells, sorted, frac, segLength, k - 1);
      LiveExtends(cells, Slot(k - 1, segLength, 0), Slot(k, segLength, 0), sorted,
                  Cut(frac, |sorted|, k - 1), Cut(frac, |sorted|, k));
    }
  }

  lemma LiveExtends(cells: seq<Cell>, a: nat, b: nat, sorted: seq<Cell>, lo: nat, hi: nat)
    requires a <= b <= |cells| && lo <= hi <= |sorted|
    requires Live(cells[..a]) == sorted[..lo] && Live(cells[a..b]) == sorted[lo..hi]
    ensures Live(cells[..b]) == sorted[..hi]
  {
    assert cells[..b] == cells[..a] + cells[a..b];
    LiveConcat(cells[..a], cells[a..b]);
    assert sorted[..hi] == sorted[..lo] + sorted[lo..hi];
  }

  /** Slot `t` of segment `s` after the first `i` keys have been dealt. */
  ghost predicate PartlyHolds(cell: Cell, sorted: seq<Cell>, frac: nat, s: nat, t: nat, i: nat)
    requires frac > 0 && i <= |sorted|
  {
    var at := Cut(frac, |sorted|, s) + t;
    if at < Cut(frac, |sorted|, s + 1) && at < i then cell == sorted[at] else cell.key == KEY_NONE
  }

  ghost predicate PartlyDealt(cells: seq<Cell>, sorted: seq<Cell>, frac: nat, segLength: nat, i: nat)
    requires frac > 0 && i <= |sorted|
  {
    |cells| == frac * segLength && forall s, t :: 0 <= s < frac && 0 <= t < segLength ==>
      Slot(s, segLength, t) < |cells| && PartlyHolds(cells[Slot(s, segLength, t)], sorted, frac, s, t, i)
  }

  /** Where key `i` goes. */
  function Projection(frac: nat, segLength: nat, size: nat, i: nat): nat
    requires frac > 0 && size > 0
  {
    SegIdx(frac, size, i) * segLength + SegLane(frac, size, i)
  }

  lemma DealOne(cells: seq<Cell>, sorted: seq<Cell>, frac: nat, segLength: nat, i: nat)
    requires frac > 0 && i < |sorted| <= frac * segLength && PartlyDealt(cells, sorted, frac, segLength, i)
    ensures Projection(frac, segLength, |sorted|, i) < |cells|
    ensures PartlyDealt(cells[Projection(frac, segLength, |sorted|, i) := sorted[i]], sorted, frac, segLength, i + 1)
  {
    var size, s0 := |sorted|, SegIdx(frac, |sorted|, i);
    KeyInside(frac, size, segLength, i);
    Dispatched(frac, size, i, s0);
    var t0 := i - Cut(frac, size, s0);
    SlotInside(s0, segLength, t0, frac);
    assert Projection(frac, segLength, size, i) == Slot(s0, segLength, t0);
    var cells' := cells[Slot(s0, segLength, t0) := sorted[i]];
    forall s, t | 0 <= s < frac && 0 <= t < segLength
      ensures Slot(s, segLength, t) < |cells'| && PartlyHolds(cells'[Slot(s, segLength, t)], sorted, frac, s, t, i + 1)
    {
      SlotInside(s, segLength, t, frac);
      assert PartlyHolds(cells[Slot(s, segLength, t)], sorted, frac, s, t, i);
      if Cut(frac, size, s) + t == i { Dispatched(frac, size, i, s); }
    }
  }

  /** Key `i` falls into a segment of the node, and into a slot of it. */
  lemma KeyInside(frac: nat, size: nat, segLength: nat, i: nat)
    requires frac > 0 && i < size <= frac * segLength
    ensures SegIdx(frac, size, i) < frac && SegLane(frac, size, i) < segLength
  {
    LessTimes(frac, i + 1, size);
    Distribute(frac, i, 1);
    var s := SegIdx(frac, size, i);
    assert frac * i == s * size + frac * i % size;
    if s >= frac { LessTimes(size, frac, s); }
    Dispatched(frac, size, i, s);
    CutsAscend(frac, size, segLength, s);
  }

  /** Deals sorted cells evenly to the segments of a cleared node. */
  method Redispatch(cells: array<Cell>, node: nat, width: nat, segLength: nat, frac: nat, sorted: seq<Cell>)
    requires frac > 0 && segLength > 0 && width == frac * segLength && node + width <= cells.Length && |sorted| <= width
    requires forall i :: node + |sorted| <= i < node + width ==> cells[i].key == KEY_NONE
    modifies cells
    ensures Dealt(cells[node..node + width], sorted, frac, segLength)
    ensures forall i :: 0 <= i < node || node + width <= i < cells.Length ==> cells[i] == old(cells[i])
  {
    ClearKeys(cells, node, |sorted|);
    forall s, t | 0 <= s < frac && 0 <= t < segLength
      ensures Slot(s, segLength, t) < width
    {
      SlotInside(s, segLength, t, frac);
    }
    for i := 0 to |sorted|
      invariant PartlyDealt(cells[node..node + width], sorted, frac, segLength, i)
      invariant forall k :: 0 <= k < node || node + width <= k < cells.Length ==> cells[k] == old(cells[k])
    {
      ghost var before := cells[node..node + width];
      DealOne(before, sorted, frac, segLength, i);
      var location := frac * i / |sorted| * segLength + frac * i % |sorted| / frac;
      cells[node + location] := sorted[i];
      assert cells[node..node + width] == before[location := sorted[i]];
    }
    AllDealt(cells[node..node + width], sorted, frac, segLength);
  }

  lemma AllDealt(cells: seq<Cell>, sorted: seq<Cell>, frac: nat, segLength: nat)
    requires frac > 0 && |sorted| <= frac * segLength && PartlyDealt(cells, sorted, frac, segLength, |sorted|)
    ensures Dealt(cells, sorted, frac, segLength)
  {
    forall s, t | 0 <= s < frac && 0 <= t < segLength
      ensures Slot(s, segLength, t) < |cells| && SlotHolds(cells[Slot(s, segLength, t)], sorted, frac, s, t)
    {
      assert PartlyHolds(cells[Slot(s, segLength, t)], sorted, frac, s, t, |sorted|);
      CutsAscend(frac, |sorted|, segLength, s);
    }
  }

  // ---- Rebalancing a node ----

  /** Merges the updates of a node into it if the bounds of its level allow that many keys.  The live
      keys of the node are kept either way. */
  method Rebalance(cells: array<Cell>, node: nat, width: nat, segLength: nat, frac: nat, updates: seq<Cell>, lower: nat, upper: nat)
    returns (done: bool, ghost sorted: seq<Cell>)
    requires frac > 0 && segLength > 0 && width == frac * segLength && node + width <= cells.Length && upper <= width
    requires forall i :: 0 <= i < |updates| ==> updates[i].Live()
    modifies cells
    ensures done <==> lower <= |old(Live(cells[node..node + width]))| + |updates| <= upper
    ensures !done ==> Live(cells[node..node + width]) == old(Live(cells[node..node + width]))
    ensures done ==> SortedByKey(sorted) && multiset(sorted) == multiset(old(Live(cells[node..node + width])) + updates)
    ensures done ==> Live(cells[node..node + width]) == sorted && Dealt(cells[node..node + width], sorted, frac, segLength)
    ensures forall i :: 0 <= i < node || node + width <= i < cells.Length ==> cells[i] == old(cells[i])
  {
    ghost var live := Live(cells[node..node + width]);
    LiveAreLive(cells[node..node + width]);
    var compacted := Compact(cells, node, width);
    var merge := compacted + |updates|;
    done := lower <= merge <= upper;
    var front := cells[node..node + compacted];
    if !done {
      CompactedLive(cells[node..node + width], front);
      sorted := [];
      return;
    }
    var s := SortPairs(front + updates);
    sorted := s;
    SortedAreLive(front, updates, s);
    Redispatch(cells, node, width, segLength, frac, s);
    DealtLive(cells[node..node + width], s, frac, segLength, frac);
    CutEnds(frac, |s|);
    assert s[..|s|] == s && cells[node..node + width][..width] == cells[node..node + width];
  }

  lemma CompactedLive(cells: seq<Cell>, front: seq<Cell>)
    requires |front| <= |cells| && cells[..|front|] == front
    requires (forall i :: 0 <= i < |front| ==> front[i].Live()) && forall i :: |front| <= i < |cells| ==> cells[i].key == KEY_NONE
    ensures Live(cells) == front
  {
    assert cells == front + cells[|front|..];
    LiveConcat(front, cells[|front|..]);
    AllLive(front);
    NoneLive(cells[|front|..]);
  }

  lemma SortedAreLive(front: seq<Cell>, updates: seq<Cell>, sorted: seq<Cell>)
    requires (forall i :: 0 <= i < |front| ==> front[i].Live()) && forall i :: 0 <= i < |updates| ==> updates[i].Live()
    requires multiset(sorted) == multiset(front + updates)
    ensures forall i :: 0 <= i < |sorted| ==> sorted[i].Live()
  {
    forall i | 0 <= i < |sorted|
      ensures sorted[i].Live()
    {
      assert sorted[i] in multiset(sorted);
      assert sorted[i] in front + updates;
    }
  }

  /** Any run of segments of a dealt node holds the keys between its cuts. */
  lemma RunLive(cells: seq<Cell>, sorted: seq<Cell>, frac: nat, segLength: nat, s: nat, g: nat)
    requires frac > 0 && s + g <= frac && |cells| == frac * segLength
    requires Dealt(cells, sorted, frac, segLength) && |sorted| <= frac * segLength
    requires forall i :: 0 <= i < |sorted| ==> sorted[i].Live()
    ensures Slot(s, segLength, 0) <= Slot(s + g, segLength, 0) <= |cells|
    ensures |Live(cells[Slot(s, segLength, 0)..Slot(s + g, segLength, 0)])| == Cut(frac, |sorted|, s + g) - Cut(frac, |sorted|, s)
  {
    DealtLive(cells, sorted, frac, segLength, s);
    DealtLive(cells, sorted, frac, segLength, s + g);
    LessTimes(segLength, s, s + g);
    var a, b := Slot(s, segLength, 0), Slot(s + g, segLength, 0);
    assert cells[..b] == cells[..a] + cells[a..b];
    LiveConcat(cells[..a], cells[a..b]);
  }

  /** After a node at `level` has been rebalanced within its bounds, every node below it is within its own. */
  lemma SubnodesInBounds(cells: seq<Cell>, sorted: seq<Cell>, segLength: nat, lower: seq<nat>, upper: seq<nat>, level: nat, j: nat, s: nat)
    requires Trimmed(lower, upper) && j <= level < |lower| && lower[level] <= |sorted| <= upper[level] <= Pow2(level) * segLength
    requires |cells| == Pow2(level) * segLength && Dealt(cells, sorted, Pow2(level), segLength) && s + Pow2(j) <= Pow2(level)
    requires forall i :: 0 <= i < |sorted| ==> sorted[i].Live()
    ensures Slot(s, segLength, 0) <= Slot(s + Pow2(j), segLength, 0) <= |cells|
    ensures lower[j] <= |Live(cells[Slot(s, segLength, 0)..Slot(s + Pow2(j), segLength, 0)])| <= upper[j]
  {
    RunLive(cells, sorted, Pow2(level), segLength, s, Pow2(j));
    DensityInherited(lower, upper, level, |sorted|, j, s);
  }

  // ---- Finding a leaf ----

  /** The first keys of the segments ascend. */
  ghost predicate HeadsAscend(cells: seq<Cell>, frac: nat, segLength: nat) {
    && (forall s :: 0 <= s < frac ==> Slot(s, segLength, 0) < |cells|)
    && (forall s, t :: 0 <= s < t < frac ==> cells[Slot(s, segLength, 0)].key <= cells[Slot(t, segLength, 0)].key)
  }

  /** With a key for every segment, the heads of a dealt node are live and ascend. */
  lemma DealtHeads(cells: seq<Cell>, sorted: seq<Cell>, frac: nat, segLength: nat)
    requires 0 < frac <= |sorted| <= frac * segLength && segLength > 0 && |cells| == frac * segLength
    requires Dealt(cells, sorted, frac, segLength) && SortedByKey(sorted) && forall i :: 0 <= i < |sorted| ==> sorted[i].Live()
    ensures HeadsAscend(cells, frac, segLength)
    ensures forall s :: 0 <= s < frac ==> cells[Slot(s, segLength, 0)].Live()
  {
    var size := |sorted|;
    forall s | 0 <= s < frac
      ensures Slot(s, segLength, 0) < |cells| && Cut(frac, size, s) < size && cells[Slot(s, segLength, 0)] == sorted[Cut(frac, size, s)]
    {
      EvenShare(frac, size, s, 1, 1, segLength);
      CutsAscend(frac, size, segLength, s);
      assert SlotHolds(cells[Slot(s, segLength, 0)], sorted, frac, s, 0);
    }
    forall s, t | 0 <= s < t < frac
      ensures cells[Slot(s, segLength, 0)].key <= cells[Slot(t, segLength, 0)].key
    {
      CutMonotone(frac, size, s, t);
    }
  }

  /** Setting a bit that is clear. */
  function Or(prefix: nat, bit: nat): nat
    requires bit > 0 && prefix % (2 * bit) == 0
  {
    prefix + bit
  }

  /** The bit that is tried when `k` levels are left. */
  ghost function BitOf(segLength: nat, k: nat): nat {
    if k == 0 then segLength / 2 else segLength * Pow2(k - 1)
  }

  lemma Bits(segLength: nat, k: nat)
    requires segLength > 0
    ensures segLength * Pow2(k) / 2 == BitOf(segLength, k)
    ensures k > 0 ==> BitOf(segLength, k) / 2 == BitOf(segLength, k - 1)
    ensures segLength <= BitOf(segLength, k) <==> k > 0
  {
    TwiceHalf(segLength, k);
    if k > 0 {
      TwiceHalf(segLength, k - 1);
      LessTimes(segLength, 1, Pow2(k - 1));
    }
  }

  lemma TwiceHalf(segLength: nat, k: nat)
    ensures segLength * Pow2(k) / 2 == BitOf(segLength, k)
  {
    if k == 0 {
      assert segLength * 1 == segLength;
    } else {
      var p := Pow2(k - 1);
      assert Pow2(k) == 2 * p;
      TwiceIs(segLength, p);
    }
  }

  lemma TwiceIs(x: nat, p: nat)
    ensures x * (2 * p) / 2 == x * p
  {
    var z := x * p;
    assert x * (2 * p) == 2 * z;
  }

  lemma Multiple(x: nat, m: nat)
    requires m > 0
    ensures (x * m) % m == 0
  {
    Quotient(x * m, m, x);
  }

  /** With `k` levels left, the leaf is one of the `2^k` segments from number `c * 2^k` on. */
  ghost predicate Narrowed(cells: seq<Cell>, segLength: nat, height: nat, key: nat, k: nat, c: nat) {
    && HeadsAscend(cells, Pow2(height), segLength) && k <= height
    && First(c + 1, k) <= Pow2(height)
    && (First(c, k) > 0 ==> cells[Slot(First(c, k), segLength, 0)].key <= key)
    && forall t :: First(c + 1, k) <= t < Pow2(height) ==> key < cells[Slot(t, segLength, 0)].key
  }

  ghost function First(c: nat, k: nat): nat { c * Pow2(k) }

  lemma FirstHalves(c: nat, k: nat)
    requires k > 0
    ensures First(c, k) == First(2 * c, k - 1) && First(c + 1, k) == First(2 * c + 2, k - 1)
    ensures First(2 * c, k - 1) < First(2 * c + 1, k - 1) < First(2 * c + 2, k - 1)
  {
    var p := Pow2(k - 1);
    assert Pow2(k) == 2 * p;
    Distribute(p, 2 * c, 1);
    Distribute(p, 2 * c + 1, 1);
  }

  /** The bit that is tried leads to the upper half. */
  lemma UpperHalf(segLength: nat, k: nat, c: nat)
    requires segLength > 0 && k > 0
    ensures BitOf(segLength, k) > 0 && Slot(First(c, k), segLength, 0) % (2 * BitOf(segLength, k)) == 0
    ensures Slot(First(c, k), segLength, 0) + BitOf(segLength, k) == Slot(First(2 * c + 1, k - 1), segLength, 0)
  {
    var p, bit := Pow2(k - 1), BitOf(segLength, k);
    assert Pow2(k) == 2 * p && bit == segLength * p;
    LessTimes(segLength, 1, p);
    assert c * Pow2(k) * segLength == c * (2 * bit);
    Multiple(c, 2 * bit);
    Distribute(p, 2 * c, 1);
    Distribute(segLength, First(c, k), p);
  }

  lemma NarrowOnce(cells: seq<Cell>, segLength: nat, height: nat, key: nat, k: nat, c: nat)
    requires segLength > 0 && k > 0 && Narrowed(cells, segLength, height, key, k, c)
    ensures Slot(First(2 * c + 1, k - 1), segLength, 0) < |cells|
    ensures var high := cells[Slot(First(2 * c + 1, k - 1), segLength, 0)].key <= key;
      Narrowed(cells, segLength, height, key, k - 1, if high then 2 * c + 1 else 2 * c)
  {
    FirstHalves(c, k);
    var mid := First(2 * c + 1, k - 1);
    assert Slot(mid, segLength, 0) < |cells|;
  }

  /** `leaf`, at place `prefix`, is the last segment whose first key is at most `key`, or the first segment. */
  ghost predicate Locates(cells: seq<Cell>, segLength: nat, height: nat, key: nat, leaf: nat, prefix: nat)
    requires HeadsAscend(cells, Pow2(height), segLength)
  {
    && leaf < Pow2(height) && prefix == Slot(leaf, segLength, 0) < |cells|
    && (leaf > 0 ==> cells[prefix].key <= key)
    && forall t :: leaf < t < Pow2(height) ==> key < cells[Slot(t, segLength, 0)].key
  }

  /** Bitwise descent to the place of a leaf. */
  method LocateLeaf(cells: seq<Cell>, segLength: nat, height: nat, key: nat) returns (prefix: nat)
    requires segLength > 0 && HeadsAscend(cells, Pow2(height), segLength)
    ensures exists leaf: nat :: Locates(cells, segLength, height, key, leaf, prefix)
  {
    prefix := 0;
    var currentBit := segLength * Pow2(height) / 2;
    Bits(segLength, height);
    ghost var k: nat, c: nat := height, 0;
    while segLength <= currentBit
      invariant currentBit == BitOf(segLength, k) && Narrowed(cells, segLength, height, key, k, c)
      invariant prefix == Slot(First(c, k), segLength, 0)
      decreases k
    {
      Bits(segLength, k);
      UpperHalf(segLength, k, c);
      NarrowOnce(cells, segLength, height, key, k, c);
      FirstHalves(c, k);
      c := 2 * c;
      if cells[Or(prefix, currentBit)].key <= key {
        prefix, c := Or(prefix, currentBit), c + 1;
      }
      currentBit := currentBit / 2;
      k := k - 1;
    }
    Bits(segLength, k);
    assert First(c, 0) == c && First(c + 1, 0) == c + 1;
    assert Locates(cells, segLength, height, key, c, prefix);
  }

  // ---- Last set bit ----

  /** The number of the highest set bit, counted from one; zero for zero. */
  method Fls(x0: bv32) returns (r: bv32)
    ensures x0 == 0 ==> r == 0
    ensures x0 != 0 ==> 1 <= r <= 32 && x0 >> (r - 1) == 1
  {
    var x := x0;
    r := 32;
    if x == 0 { return 0; }
    if x & 0xffff0000 == 0 { x, r := x << 16, r - 16; }
    if x & 0xff000000 == 0 { x, r := x << 8, r - 8; }
    if x & 0xf0000000 == 0 { x, r := x << 4, r - 4; }
    if x & 0xc0000000 == 0 { x, r := x << 2, r - 2; }
    if x & 0x80000000 == 0 { x, r := x << 1, r - 1; }
  }
}
