/** One batch on the GPU: the first frontier, breadth-first passes through the cyclic buffer, and the
    final count by search, by decoding, or split between CPU and GPU. */
module Matching {
  import opened QueryPlan
  import opened ExactlyOnce
  import opened CpuDfs
  import opened Ring
  import Cartesian
  import opened Frontier
  import opened InitialRows

  const MIN_NRESULTS_TO_GPU := 65536
  const SIZE_SPACE := 0x1000_0000

  /** The frontier from row `k` on, cut off its first `k` rows. */
  lemma SplitAt(b: Batch, words: seq<nat>, size: nat, k: nat, depth: nat)
    requires b.Valid() && 2 <= depth <= b.plan.n && |words| == Words(size, depth) && k <= size
    ensures Words(k, depth) <= |words| && |words[Words(k, depth)..]| == Words(size - k, depth)
    ensures Below(b, words[..Words(k, depth)], depth) + Below(b, words[Words(k, depth)..], depth) == Below(b, words, depth)
  {
    WordsAdd(k, size - k, depth);
    var w := Words(k, depth);
    BelowConcat(b, words[..w], k, words[w..], depth);
    assert words[..w] + words[w..] == words;
  }

  /** Full rows are counted one each, so a pass to the last depth counts the matches. */
  lemma {:induction false} FullRows(b: Batch, words: seq<nat>, size: nat)
    requires b.Valid() && |words| == Words(size, b.plan.n)
    ensures Below(b, words, b.plan.n) == size
    decreases size
  {
    if size > 0 {
      OneRow(size, b.plan.n);
      FullRows(b, words[b.plan.n..], size - 1);
    }
  }

  /** The tasks made so far and the rows still to come lead to the matches of the frontier. */
  ghost predicate Shared(b: Batch, tasks: seq<Cartesian.Task>, rest: seq<nat>, words: seq<nat>, depth: nat)
    requires b.Valid() && 2 <= depth < b.plan.n
  {
    Cartesian.AllReady(tasks, depth) &&
    Cartesian.Matches(tasks, depth, |tasks|) + Below(b, rest, depth) == Below(b, words, depth)
  }

  lemma SharedEnds(b: Batch, tasks: seq<Cartesian.Task>, words: seq<nat>, depth: nat)
    requires b.Valid() && 2 <= depth < b.plan.n
    ensures Shared(b, [], words, words, depth)
    ensures Shared(b, tasks, [], words, depth) ==>
      Cartesian.AllReady(tasks, depth) && Cartesian.Matches(tasks, depth, |tasks|) == Below(b, words, depth)
  {
  }

  /** The rows of a frontier as decoding tasks. */
  method Tasks(b: Batch, words: seq<nat>, size: nat, depth: nat) returns (tasks: seq<Cartesian.Task>)
    requires b.Valid() && 2 <= depth < b.plan.n && |words| == Words(size, depth) && TailFrom(b.plan, depth)
    ensures Shared(b, tasks, [], words, depth)
  {
    tasks := [];
    var rest := words;
    SharedEnds(b, tasks, words, depth);
    for r := 0 to size
      invariant |rest| == Words(size - r, depth) && Shared(b, tasks, rest, words, depth)
    {
      tasks, rest := NextTask(b, tasks, rest, words, size - r, depth);
    }
    assert rest == [];
  }

  method NextTask(b: Batch, tasks: seq<Cartesian.Task>, rest: seq<nat>, ghost words: seq<nat>, left: nat, depth: nat)
    returns (tasks': seq<Cartesian.Task>, rest': seq<nat>)
    requires b.Valid() && 2 <= depth < b.plan.n && TailFrom(b.plan, depth)
    requires left > 0 && |rest| == Words(left, depth) && Shared(b, tasks, rest, words, depth)
    ensures |rest'| == Words(left - 1, depth) && Shared(b, tasks', rest', words, depth)
  {
    OneRow(left, depth);
    var w := rest[..depth];
    var t := Cartesian.Task(b.P(EdgeOf(w[0])), Unpack(w));
    OneTask(b, tasks, t, rest, depth);
    tasks', rest' := tasks + [t], rest[depth..];
  }

  lemma OneTask(b: Batch, tasks: seq<Cartesian.Task>, t: Cartesian.Task, rest: seq<nat>, depth: nat)
    requires b.Valid() && 2 <= depth < b.plan.n && depth <= |rest| && TailFrom(b.plan, depth)
    requires Cartesian.AllReady(tasks, depth) && t == Cartesian.Task(b.P(EdgeOf(rest[0])), Unpack(rest[..depth]))
    ensures Cartesian.AllReady(tasks + [t], depth)
    ensures Cartesian.Matches(tasks + [t], depth, |tasks| + 1) + Below(b, rest[depth..], depth) ==
      Cartesian.Matches(tasks, depth, |tasks|) + Below(b, rest, depth)
  {
    MatchesPrefix(tasks, t, depth, |tasks|);
  }

  lemma {:induction false} MatchesPrefix(tasks: seq<Cartesian.Task>, t: Cartesian.Task, m: nat, k: nat)
    requires Cartesian.AllReady(tasks, m) && Cartesian.Ready(t, m) && k <= |tasks|
    ensures Cartesian.AllReady(tasks + [t], m)
    ensures Cartesian.Matches(tasks + [t], m, k) == Cartesian.Matches(tasks, m, k)
    decreases k
  {
    if k > 0 { MatchesPrefix(tasks, t, m, k - 1); }
  }

  lemma RowsFit(words: nat, depth: nat)
    requires depth > 0
    ensures Words(words / depth, depth) <= words
  {
    assert words == depth * (words / depth) + words % depth;
  }

  class GPUGraphLoader {
    const b: Batch
    const info: seq<CartesianProductType>
    const queue: CyclicQueue
    var res: nat
    var resSize: nat
    var curDepth: nat

    ghost predicate Valid()
      reads this, queue, queue.arr
    {
      && b.Valid() && MarksTails(b.plan, info) && queue.Valid()
      && 2 <= curDepth < b.plan.n
      && res == SlotOf(queue.cap, queue.from, 0)
      && |queue.live| == Words(resSize, curDepth)
    }

    /** The matches that the frontier in the buffer still leads to. */
    ghost function Pending(): nat
      requires Valid()
      reads this, queue, queue.arr
    {
      Below(b, queue.live, curDepth)
    }

    constructor (b: Batch, info: seq<CartesianProductType>, cap: nat)
      requires b.Valid() && MarksTails(b.plan, info) && cap > 0
      ensures Valid() && this.b == b && this.info == info && queue.cap == cap && queue.live == []
      ensures fresh(queue) && fresh(queue.arr)
    {
      this.b, this.info := b, info;
      resSize, curDepth := 0, 2;
      res := 0;
      queue := new CyclicQueue(cap);
      new;
      res := queue.availableStart;
    }

    /** Copies the first `size` rows out of the buffer, also across its end. */
    method FetchRows(size: nat) returns (words: seq<nat>)
      requires Valid() && size <= resSize
      ensures Words(size, curDepth) <= |queue.live| && words == queue.live[..Words(size, curDepth)]
    {
      SplitAt(b, queue.live, resSize, size, curDepth);
      words := [];
      for k := 0 to Words(size, curDepth)
        invariant words == queue.live[..k]
      {
        var w := queue.Read(res, k);
        words := words + [w];
      }
    }

    /** Writes the rows of a pass, claims them, and releases the `used` words that were read. */
    method Advance(newDepth: nat, out: seq<nat>, newSize: nat, used: nat)
      requires queue.Valid() && |queue.live| == used
      requires used + |out| <= queue.cap
      modifies this, queue, queue.arr
      ensures queue.Valid() && queue.live == out && res == SlotOf(queue.cap, queue.from, 0)
      ensures curDepth == newDepth && resSize == newSize
    {
      queue.Stage(out);
      res := queue.TryMax();
      queue.Replace(|out|, out, used);
      resSize, curDepth := newSize, newDepth;
    }

    /** The rows that a pass to `newDepth` produces. */
    method Extended(newDepth: nat) returns (out: seq<nat>, newSize: nat)
      requires Valid() && curDepth < newDepth <= b.plan.n
      ensures |out| == Words(newSize, newDepth) && Below(b, out, newDepth) == Pending()
      ensures out == Extension(b, queue.live, curDepth, newDepth)
    {
      var words := FetchRows(resSize);
      assert words == queue.live;
      out, newSize := ExtendAll(b, words, resSize, curDepth, newDepth);
    }

    /** How many rows of length `newDepth` fit beside the frontier; an empty buffer counts as having no room. */
    ghost function RoomFor(newDepth: nat): int
      requires newDepth > 0
      reads this, queue, queue.arr
    {
      if queue.live == [] then 0 else (queue.cap - |queue.live|) / newDepth
    }

    /** The rows of a pass to `newDepth` are more than there is room for. */
    ghost predicate Overflows(newDepth: nat)
      requires Valid() && curDepth < newDepth < b.plan.n
      reads this, queue, queue.arr
    {
      |Extension(b, queue.live, curDepth, newDepth)| >= RoomFor(newDepth) * newDepth
    }

    /** How many rows of length `newDepth` the buffer has room for. */
    method Room(newDepth: nat) returns (maxSize: nat)
      requires queue.Valid() && newDepth > 0
      ensures |queue.live| + Words(maxSize, newDepth) <= queue.cap && maxSize == RoomFor(newDepth)
    {
      hide Words, Ring.CyclicQueue.Valid;
      queue.LiveFits();
      var free := queue.GetFree();
      maxSize := free / newDepth;
      RowsFit(free, newDepth);
    }

    /** One breadth-first pass to `newDepth`.  When the rows do not fit, what was written is given up
        and the frontier stays. */
    method Pass(newDepth: nat) returns (oom: bool)
      requires Valid() && curDepth < newDepth < b.plan.n
      modifies this, queue, queue.arr
      ensures Valid() && Pending() == old(Pending())
      ensures curDepth == if oom then old(curDepth) else newDepth
      ensures oom ==> resSize == old(resSize) && queue.live == old(queue.live)
      ensures Made(b, old(queue.live), old(curDepth), queue.live, curDepth)
      ensures (oom <==> old(Overflows(newDepth))) && (oom ==> Overflows(newDepth))
    {
      hide Words, Extension, Below, MarksTails;
      var maxSize := Room(newDepth);
      var out, newSize := Extended(newDepth);
      oom := newSize >= maxSize;
      MoreRows(newSize, maxSize, newDepth);
      if oom {
        FewerWords(maxSize, newSize, newDepth);
        Discard(out[..Words(maxSize, newDepth)]);
      } else {
        FewerWords(newSize, maxSize, newDepth);
        Advance(newDepth, out, newSize, Words(resSize, curDepth));
      }
    }

    /** Rows that are written but never claimed leave the frontier as it is. */
    method Discard(written: seq<nat>)
      requires Valid() && |queue.live| + |written| <= queue.cap
      modifies queue.arr
      ensures Valid() && Pending() == old(Pending())
    {
      queue.Stage(written);
    }

    /** Passes of one level each while the frontier is small. */
    method SmallPasses() returns (oom: bool)
      requires Valid()
      modifies this, queue, queue.arr
      ensures Valid() && Pending() == old(Pending())
      ensures Made(b, old(queue.live), old(curDepth), queue.live, curDepth)
      ensures if oom then curDepth + 1 < b.plan.n && Overflows(curDepth + 1)
        else resSize == 0 || resSize >= MIN_NRESULTS_TO_GPU || b.plan.n - curDepth <= 1
    {
      hide MarksTails, Below, Made, Overflows;
      ghost var words, size, depth := queue.live, resSize, curDepth;
      oom := false;
      NothingMade(b, words, depth);
      while !oom && 0 < resSize < MIN_NRESULTS_TO_GPU && b.plan.n - curDepth > 1
        invariant Valid() && Pending() == old(Pending()) && Made(b, words, depth, queue.live, curDepth)
        invariant oom ==> curDepth + 1 < b.plan.n && Overflows(curDepth + 1)
        decreases b.plan.n - curDepth, !oom
      {
        oom := SmallPass(words, size, depth);
      }
    }

    method SmallPass(ghost words: seq<nat>, ghost size: nat, ghost depth: nat) returns (oom: bool)
      requires Valid() && b.plan.n - curDepth > 1 && 2 <= depth && |words| == Words(size, depth) && Made(b, words, depth, queue.live, curDepth)
      modifies this, queue, queue.arr
      ensures Valid() && Pending() == old(Pending()) && Made(b, words, depth, queue.live, curDepth)
      ensures oom ==> curDepth == old(curDepth) && Overflows(curDepth + 1)
      ensures !oom ==> curDepth == old(curDepth) + 1
    {
      hide MarksTails, Below, Made, Words, Extension;
      ghost var words1, depth1 := queue.live, curDepth;
      oom := Pass(curDepth + 1);
      MadeOn(b, words, size, depth, words1, depth1, queue.live, curDepth);
    }

    /** `depth` is the first place from `from` on where a tree-shaped tail begins. */
    ghost predicate FirstTail(from: nat, depth: nat)
      requires |info| > depth
    {
      && from <= depth && (info[depth].TreeCartesianProduct? || info[depth].TreeSingle?)
      && forall d :: from <= d < depth ==> !info[d].TreeCartesianProduct? && !info[d].TreeSingle?
    }

    /** One pass over all levels before the first tree-shaped tail, unless its rows do not fit. */
    method LongPass()
      requires Valid()
      modifies this, queue, queue.arr
      ensures Valid() && Pending() == old(Pending())
      ensures Made(b, old(queue.live), old(curDepth), queue.live, curDepth)
      ensures |info| == b.plan.n && if curDepth > old(curDepth) then b.plan.n - old(curDepth) > 2 && FirstTail(old(curDepth), curDepth)
        else forall d :: curDepth < d < b.plan.n && b.plan.n - curDepth > 2 && FirstTail(curDepth, d) ==> Overflows(d)
    {
      hide Below, Made, Overflows, FirstTail, MarksTails, Ring.CyclicQueue.Valid;
      NothingMade(b, queue.live, curDepth);
      InfoSize();
      var newDepth := curDepth;
      if !info[curDepth].TreeCartesianProduct? && b.plan.n - curDepth > 2 {
        newDepth := NextTail();
        if newDepth < b.plan.n {
          var _ := Pass(newDepth);
        }
      } else {
        NoTail();
      }
    }

    /** The first place where a tree-shaped tail begins, or the end. */
    method NextTail() returns (newDepth: nat)
      requires Valid() && !info[curDepth].TreeCartesianProduct? && b.plan.n - curDepth > 2
      ensures |info| == b.plan.n && curDepth < newDepth <= b.plan.n
      ensures forall d :: curDepth <= d < b.plan.n && FirstTail(curDepth, d) <==> curDepth <= d < b.plan.n && d == newDepth
    {
      newDepth := curDepth;
      while newDepth < b.plan.n && !info[newDepth].TreeCartesianProduct? && !info[newDepth].TreeSingle?
        invariant curDepth <= newDepth <= b.plan.n
        invariant newDepth == curDepth ==> !info[newDepth].TreeCartesianProduct? && !info[newDepth].TreeSingle?
        invariant forall d :: curDepth <= d < newDepth ==> !info[d].TreeCartesianProduct? && !info[d].TreeSingle?
      {
        newDepth := newDepth + 1;
      }
    }

    lemma InfoSize()
      requires Valid()
      ensures |info| == b.plan.n
    {
    }

    lemma NoTail()
      requires Valid() && (info[curDepth].TreeCartesianProduct? || b.plan.n - curDepth <= 2)
      ensures |info| == b.plan.n && forall d :: curDepth < d < b.plan.n && b.plan.n - curDepth > 2 ==> !FirstTail(curDepth, d)
    {
    }

    /** Counts the matches below the frontier by decoding the tuples of the leaf tail. */
    method CountByDecoding() returns (count: nat)
      requires Valid() && info[curDepth].TreeCartesianProduct?
      ensures count == Pending()
    {
      var words := FetchRows(resSize);
      assert words == queue.live;
      var tasks := Tasks(b, words, resSize, curDepth);
      SharedEnds(b, tasks, words, curDepth);
      count := Cartesian.Enumerate(tasks, curDepth);
    }

    /** Counts the matches below the frontier by search: rows `[0, k)` on the CPU, the rest by warps. */
    method CountBySearch(k: nat) returns (count: nat)
      requires Valid()
      ensures count == Pending()
    {
      hide Ring.Holds, Ring.SlotOf, MarksTails, RowTotal, Words;
      var cpuCount, cpuRows := 0, 0;
      NothingBelow(b, curDepth);
      if 0 < k < resSize {
        cpuRows := k;
        var share := FetchRows(k);
        var runner := new DFSRunner(b.plan, b.main, b.upd, true, b.support);
        cpuCount := runner.CountRows(share, k, curDepth);
      }
      var words := FetchRows(resSize);
      assert words == queue.live;
      SplitAt(b, words, resSize, cpuRows, curDepth);
      assert cpuRows == 0 ==> words[..Words(cpuRows, curDepth)] == [];
      var rest, left := words[Words(cpuRows, curDepth)..], resSize - cpuRows;
      var rows, gpuCount := ExtendAll(b, rest, left, curDepth, b.plan.n);
      FullRows(b, rows, gpuCount);
      count := gpuCount + cpuCount;
    }

    /** Claims the words of the first frontier in the emptied buffer. */
    method Begin(words: seq<nat>, count: nat)
      requires b.Valid() && MarksTails(b.plan, info) && queue.Valid()
      requires |words| == Words(count, 2) <= queue.cap
      modifies this, queue, queue.arr
      ensures Valid() && queue.live == words && curDepth == 2
    {
      queue.Reset();
      res := queue.TryMax();
      queue.Stage(words);
      assert [] + words == words;
      queue.Push(|words|, words);
      resSize, curDepth := count, 2;
    }

    /** Counts the matches of a batch.  `dense` is the outcome of the density heuristic and `k` the
        CPU share of the final search; neither changes the count.  The first frontier is written without a
        look at the room in the ring: when it is larger, anything may come out. */
    method MatchingBitAll(edgeOk: seq<bool>, dense: bool, k: nat) returns (numMatches: nat)
      requires Ready(b, edgeOk) && MarksTails(b.plan, info) && queue.Valid()
      modifies this, queue, queue.arr
      ensures Words(|Starts(b, edgeOk)|, 2) <= queue.cap ==>
        numMatches == |MatchesOf(NewGraph(b.plan, b.main, b.upd), b.dv)| - |MatchesOf(OldGraph(b.plan, b.main), b.dv)|
    {
      CountsNewMatchesOnce(b.plan, b.main, b.upd, b.dv);
      var words, count;
      ghost var starts;
      words, count, starts := WriteInitial(b, edgeOk);
      if |words| <= queue.cap {
        Begin(words, count);
        numMatches := CountFrontier(dense, k);
      } else {
        numMatches := *;
      }
    }

    /** The passes and the final count, from any frontier. */
    method CountFrontier(dense: bool, k: nat) returns (numMatches: nat)
      requires Valid()
      modifies this, queue, queue.arr
      ensures numMatches == old(Pending())
    {
      var oom := SmallPasses();
      if !oom && resSize > 0 {
        LongPass();
      }
      numMatches := FinalCount(dense, k);
    }

    /** The final enumeration. */
    method FinalCount(dense: bool, k: nat) returns (numMatches: nat)
      requires Valid()
      ensures numMatches == Pending()
    {
      if resSize == 0 {
        numMatches := 0;
      } else if info[curDepth].TreeCartesianProduct? && resSize < SIZE_SPACE - 1 && !dense {
        numMatches := CountByDecoding();
      } else {
        numMatches := CountBySearch(k);
      }
    }
  }

  /** The words are the frontier that passes from `depth0` to `depth` make of `words0`. */
  ghost predicate Made(b: Batch, words0: seq<nat>, depth0: nat, words: seq<nat>, depth: nat)
    requires b.plan.Valid() && 2 <= depth0
  {
    depth0 <= depth <= b.plan.n && words == if depth == depth0 then words0 else Extension(b, words0, depth0, depth)
  }

  lemma NothingMade(b: Batch, words: seq<nat>, depth: nat)
    requires b.plan.Valid() && 2 <= depth <= b.plan.n
    ensures Made(b, words, depth, words, depth)
  {
  }

  /** Passes one after the other make what one pass to the last depth makes. */
  lemma MadeOn(b: Batch, words0: seq<nat>, size0: nat, depth0: nat, words1: seq<nat>, depth1: nat, words2: seq<nat>, depth2: nat)
    requires b.plan.Valid() && 2 <= depth0 && |words0| == Words(size0, depth0)
    requires Made(b, words0, depth0, words1, depth1) && Made(b, words1, depth1, words2, depth2)
    ensures Made(b, words0, depth0, words2, depth2)
  {
    if depth0 < depth1 < depth2 { ExtensionTwice(b, words0, size0, depth0, depth1, depth2); }
  }

  lemma MoreRows(x: nat, y: int, depth: nat)
    requires depth > 0
    ensures x >= y <==> Words(x, depth) >= y * depth
  {
    if x >= y { assert x * depth >= y * depth; } else { assert x * depth < y * depth; }
  }

  lemma FewerWords(x: nat, y: nat, depth: nat)
    requires x <= y
    ensures Words(x, depth) <= Words(y, depth)
  {
    WordsAdd(x, y - x, depth);
  }
}
