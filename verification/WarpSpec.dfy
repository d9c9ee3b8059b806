/** The explicit stack of one GPU warp: what its levels stand for, the output that is still to come,
    and the effect of its three kinds of step. */
module WarpSpec {
  import opened MatchSearch

  const WARP_SIZE := 32

  /** One level of the stack: a queue of up to 32 accepted candidates with a cursor, and how far the
      neighbour list of the first backward vertex has been scanned for the cursor value `endV`. */
  datatype Level = Level(queue: seq<nat>, pos: nat, size: nat, endV: nat, endNbr: nat, cont: bool)

  function Buffer(v: nat): (buffer: seq<nat>)
    ensures |buffer| == WARP_SIZE && buffer[0] == v
  {
    seq(WARP_SIZE, _ => v)
  }

  const EMPTY_LEVEL := Level(Buffer(0), 0, 0, 0, 0, false)

  /** The partial match that the levels below `d` spell out. */
  function RowAt(ls: seq<Level>, v0: nat, v1: nat, d: nat): (r: Row)
    requires 2 <= d <= |ls| + 2
    requires forall i :: 0 <= i < d - 2 ==> ls[i].pos < |ls[i].queue|
    ensures |r| == d
  {
    [v0, v1] + seq(d - 2, i requires 0 <= i < d - 2 => ls[i].queue[ls[i].pos])
  }

  /** The cursor of the level that holds the first backward neighbour of `d`. */
  function Cursor(p: Problem, ls: seq<Level>, d: nat): nat
    requires p.Valid() && 2 <= d < p.n && |ls| == p.n - 2
  {
    var j := p.bni[d][0];
    if j < 2 then 0 else ls[j - 2].pos
  }

  predicate Exhausted(p: Problem, ls: seq<Level>, d: nat)
    requires p.Valid() && 2 <= d < p.n && |ls| == p.n - 2
  {
    ls[d - 2].cont && ls[d - 2].endV > Cursor(p, ls, d)
  }

  /** The candidates of level `d` that have not been scanned yet. */
  function Unscanned(p: Problem, ls: seq<Level>, d: nat, row: Row): seq<nat>
    requires p.Valid() && 2 <= d < p.n && |ls| == p.n - 2 && |row| == d
  {
    var all := Candidates(p, row);
    if !ls[d - 2].cont then all
    else if Exhausted(p, ls, d) || ls[d - 2].endNbr > |all| then []
    else all[ls[d - 2].endNbr..]
  }

  /** The queue entries of a level that are still to be expanded; `top` says that the level is the
      current one, whose cursor entry has not been descended into. */
  function Waiting(l: Level, top: bool): seq<nat> {
    var from := if top then l.pos else l.pos + 1;
    if from <= l.size <= |l.queue| then l.queue[from..l.size] else []
  }

  // ---- Frames: what each level has still to do ----

  /** `todo` are the candidates of `row` still to be expanded, `scan` bounds the scans to come. */
  datatype Frame = Frame(row: Row, todo: seq<nat>, scan: nat)

  function FrameAt(p: Problem, ls: seq<Level>, v0: nat, v1: nat, d: nat, top: bool): (f: Frame)
    requires p.Valid() && 2 <= d < p.n && |ls| == p.n - 2
    requires forall i :: 0 <= i < d - 2 ==> ls[i].pos < |ls[i].queue|
    ensures |f.row| == d
  {
    var row := RowAt(ls, v0, v1, d);
    var rest := Unscanned(p, ls, d, row);
    Frame(row, Waiting(ls[d - 2], top) + rest, |rest| + (if Exhausted(p, ls, d) then 1 else 2))
  }

  /** The frames of the levels `d, d - 1, .., start`. */
  function Frames(p: Problem, ls: seq<Level>, v0: nat, v1: nat, start: nat, d: nat, top: bool): (fs: seq<Frame>)
    requires p.Valid() && 2 <= start && start <= d + 1 <= p.n && |ls| == p.n - 2
    requires forall i :: 0 <= i < d - 2 ==> ls[i].pos < |ls[i].queue|
    ensures forall f :: f in fs ==> start <= |f.row| <= d
    decreases d
  {
    if d < start then [] else [FrameAt(p, ls, v0, v1, d, top)] + Frames(p, ls, v0, v1, start, d - 1, false)
  }

  lemma FramesTop(p: Problem, ls: seq<Level>, v0: nat, v1: nat, start: nat, d: nat)
    requires p.Valid() && 2 <= start <= d < p.n && |ls| == p.n - 2
    requires forall i :: 0 <= i < d - 2 ==> ls[i].pos < |ls[i].queue|
    ensures Frames(p, ls, v0, v1, start, d, true) == [FrameAt(p, ls, v0, v1, d, true)] + Frames(p, ls, v0, v1, start, d - 1, false)
    ensures d == start ==> Frames(p, ls, v0, v1, start, d - 1, false) == []
    ensures d > start ==> Frames(p, ls, v0, v1, start, d - 1, false) == [FrameAt(p, ls, v0, v1, d - 1, false)] + Frames(p, ls, v0, v1, start, d - 2, false)
  {
    hide FrameAt;
  }

  ghost predicate Short(fs: seq<Frame>, e: nat) {
    forall f :: f in fs ==> 1 <= |f.row| < e
  }

  /** The rows that the frames will still emit, deepest frame first. */
  ghost function Output(p: Problem, e: nat, fs: seq<Frame>): seq<Row>
    requires p.Valid() && e <= p.n && Short(fs, e)
  {
    if fs == [] then [] else CompleteFrom(p, e, fs[0].row, fs[0].todo) + Output(p, e, fs[1..])
  }

  /** Steps that the machine needs for candidates `cs` of `row` once they are queued. */
  function Cost(p: Problem, e: nat, row: Row, cs: seq<nat>): nat
    requires p.Valid() && 1 <= |row| < e <= p.n
    decreases e - |row|, |cs|
  {
    if cs == [] then 0
    else
      var c := cs[0];
      (if Accepts(p, row, c) && |row| + 1 < e then
         3 + Cost(p, e, row + [c], Candidates(p, row + [c])) + |Candidates(p, row + [c])|
       else 1) + Cost(p, e, row, cs[1..])
  }

  /** An upper bound on the steps left. */
  ghost function Steps(p: Problem, e: nat, fs: seq<Frame>): nat
    requires p.Valid() && e <= p.n && Short(fs, e)
  {
    if fs == [] then 0 else Cost(p, e, fs[0].row, fs[0].todo) + fs[0].scan + Steps(p, e, fs[1..])
  }

  lemma OutputCons(p: Problem, e: nat, f: Frame, fs: seq<Frame>)
    requires p.Valid() && e <= p.n && Short(fs, e) && 1 <= |f.row| < e
    ensures Short([f] + fs, e)
    ensures Output(p, e, [f] + fs) == CompleteFrom(p, e, f.row, f.todo) + Output(p, e, fs)
    ensures Steps(p, e, [f] + fs) == Cost(p, e, f.row, f.todo) + f.scan + Steps(p, e, fs)
  {
    assert ([f] + fs)[1..] == fs;
  }

  lemma {:induction false} CostConcat(p: Problem, e: nat, row: Row, a: seq<nat>, b: seq<nat>)
    requires p.Valid() && 1 <= |row| < e <= p.n
    ensures Cost(p, e, row, a + b) == Cost(p, e, row, a) + Cost(p, e, row, b)
    decreases |a|
  {
    if a == [] {
      assert a + b == b;
    } else {
      CostConcat(p, e, row, a[1..], b);
      assert (a + b)[1..] == a[1..] + b;
    }
  }

  // ---- Invariant ----

  /** Well-formedness of the levels while the machine works at depth `d`. */
  ghost predicate Working(p: Problem, e: nat, ls: seq<Level>, v0: nat, v1: nat, start: nat, d: nat) {
    && p.Valid() && 2 <= start <= d < e <= p.n && |ls| == p.n - 2
    && (forall i :: 0 <= i < |ls| ==> ls[i].pos <= ls[i].size <= |ls[i].queue| == WARP_SIZE)
    && (forall i :: 0 <= i < d - 2 ==> ls[i].pos < ls[i].size)
    && (forall i :: start <= i <= d ==> Honest(p, e, ls, v0, v1, i))
    && (forall k :: start - 2 <= k < d - 2 ==> ls[k].cont)
    && (forall k :: d - 2 < k < e - 2 ==> Idle(ls[k]))
  }

  /** The scan marks of level `i` fit its list, and its queue holds accepted candidates. */
  ghost predicate Honest(p: Problem, e: nat, ls: seq<Level>, v0: nat, v1: nat, i: nat)
    requires p.Valid() && 2 <= i < e <= p.n && |ls| == p.n - 2
    requires forall k :: 0 <= k < i - 2 ==> ls[k].pos < |ls[k].queue|
    requires forall k :: 0 <= k < |ls| ==> ls[k].pos <= ls[k].size <= |ls[k].queue|
  {
    var l, row := ls[i - 2], RowAt(ls, v0, v1, i);
    && (!l.cont ==> l.pos == l.size == 0)
    && (l.cont ==> Cursor(p, ls, i) <= l.endV <= Cursor(p, ls, i) + 1)
    && (l.cont ==> l.endNbr <= |Candidates(p, row)|)
    && (i == e - 1 ==> l.pos == l.size)
    && (forall k :: l.pos <= k < l.size ==> Accepts(p, row, l.queue[k]))
  }

  /** A level that is not in use. */
  predicate Idle(l: Level) { !l.cont && l.pos == l.size == 0 }

  /** The two stacks agree below depth `d`. */
  ghost predicate SameBelow(ls: seq<Level>, ls': seq<Level>, d: nat) {
    |ls| == |ls'| && d <= |ls| + 2 && forall i :: 0 <= i < d - 2 ==> ls[i] == ls'[i]
  }

  lemma FrameLocal(p: Problem, ls: seq<Level>, ls': seq<Level>, v0: nat, v1: nat, d: nat, top: bool)
    requires p.Valid() && 2 <= d < p.n && |ls| == p.n - 2
    requires SameBelow(ls, ls', d + 1)
    requires forall i :: 0 <= i < d - 2 ==> ls[i].pos < |ls[i].queue|
    ensures FrameAt(p, ls', v0, v1, d, top) == FrameAt(p, ls, v0, v1, d, top)
  {
    assert RowAt(ls', v0, v1, d) == RowAt(ls, v0, v1, d);
    assert Cursor(p, ls', d) == Cursor(p, ls, d);
  }

  /** The frames up to depth `d` depend on the levels up to `d` only. */
  lemma {:induction false} FramesLocal(p: Problem, ls: seq<Level>, ls': seq<Level>, v0: nat, v1: nat, start: nat, d: nat, top: bool)
    requires p.Valid() && 2 <= start && start <= d + 1 <= p.n && |ls| == p.n - 2
    requires SameBelow(ls, ls', d + 1)
    requires forall i :: 0 <= i < d - 2 ==> ls[i].pos < |ls[i].queue|
    ensures Frames(p, ls', v0, v1, start, d, top) == Frames(p, ls, v0, v1, start, d, top)
    decreases d
  {
    if d >= start {
      FrameLocal(p, ls, ls', v0, v1, d, top);
      FramesLocal(p, ls, ls', v0, v1, start, d - 1, false);
    }
  }

  lemma Assoc<T>(a: seq<T>, b: seq<T>, c: seq<T>)
    ensures (a + b) + c == a + (b + c)
  {
  }

  // ---- Descending ----

  /** The frames before and after the move. */
  lemma DescendFrames(p: Problem, e: nat, ls: seq<Level>, v0: nat, v1: nat, start: nat, d: nat) returns (f: Frame, c: nat)
    requires Working(p, e, ls, v0, v1, start, d) && ls[d - 2].pos < ls[d - 2].size && d < e - 1
    ensures f == FrameAt(p, ls, v0, v1, d, false) && Accepts(p, f.row, c)
    ensures FrameAt(p, ls, v0, v1, d, true) == f.(todo := [c] + f.todo)
    ensures FrameAt(p, ls, v0, v1, d + 1, true) ==
      Frame(f.row + [c], Candidates(p, f.row + [c]), |Candidates(p, f.row + [c])| + 2)
  {
    var l := ls[d - 2];
    f, c := FrameAt(p, ls, v0, v1, d, false), l.queue[l.pos];
    var rest := Unscanned(p, ls, d, f.row);
    assert Honest(p, e, ls, v0, v1, d);
    assert Waiting(l, true) == [c] + Waiting(l, false);
    Assoc([c], Waiting(l, false), rest);
    assert RowAt(ls, v0, v1, d + 1) == f.row + [c];
    assert Idle(ls[d - 1]) && Waiting(ls[d - 1], true) == [];
    assert [] + Candidates(p, f.row + [c]) == Candidates(p, f.row + [c]);
  }

  lemma DescendKeepsWorking(p: Problem, e: nat, ls: seq<Level>, v0: nat, v1: nat, start: nat, d: nat)
    requires Working(p, e, ls, v0, v1, start, d) && ls[d - 2].pos < ls[d - 2].size && d < e - 1
    ensures Working(p, e, ls, v0, v1, start, d + 1)
  {
    assert Idle(ls[d - 1]);
    assert Honest(p, e, ls, v0, v1, d);
    assert Honest(p, e, ls, v0, v1, d + 1);
  }

  lemma DescendBalance(p: Problem, e: nat, f: Frame, c: nat, below: seq<Frame>)
    requires p.Valid() && e <= p.n && Short(below, e) && 1 <= |f.row| < e - 1 && Accepts(p, f.row, c)
    ensures var top, sub := f.(todo := [c] + f.todo), Frame(f.row + [c], Candidates(p, f.row + [c]), |Candidates(p, f.row + [c])| + 2);
      && Short([sub] + ([f] + below), e) && Short([top] + below, e)
      && Output(p, e, [sub] + ([f] + below)) == Output(p, e, [top] + below)
      && Steps(p, e, [sub] + ([f] + below)) < Steps(p, e, [top] + below)
  {
    var row := f.row;
    var top, sub := f.(todo := [c] + f.todo), Frame(row + [c], Candidates(p, row + [c]), |Candidates(p, row + [c])| + 2);
    OutputCons(p, e, f, below);
    OutputCons(p, e, top, below);
    OutputCons(p, e, sub, [f] + below);
    CompleteFromConcat(p, e, row, [c], f.todo);
    CostConcat(p, e, row, [c], f.todo);
    assert CompleteFrom(p, e, row, [c]) == Complete(p, e, row + [c]) + CompleteFrom(p, e, row, []);
    assert Cost(p, e, row, [c]) == 3 + Cost(p, e, row + [c], Candidates(p, row + [c])) + |Candidates(p, row + [c])|;
    Assoc(Complete(p, e, row + [c]), CompleteFrom(p, e, row, f.todo), Output(p, e, below));
  }

  /** Moving to the next level hands the subtree of the cursor entry to that level. */
  lemma Descend(p: Problem, e: nat, ls: seq<Level>, v0: nat, v1: nat, start: nat, d: nat)
    requires Working(p, e, ls, v0, v1, start, d) && ls[d - 2].pos < ls[d - 2].size && d < e - 1
    ensures Working(p, e, ls, v0, v1, start, d + 1)
    ensures Output(p, e, Frames(p, ls, v0, v1, start, d + 1, true)) == Output(p, e, Frames(p, ls, v0, v1, start, d, true))
    ensures Steps(p, e, Frames(p, ls, v0, v1, start, d + 1, true)) < Steps(p, e, Frames(p, ls, v0, v1, start, d, true))
  {
    DescendKeepsWorking(p, e, ls, v0, v1, start, d);
    var f, c := DescendFrames(p, e, ls, v0, v1, start, d);
    DescendBalance(p, e, f, c, Frames(p, ls, v0, v1, start, d - 1, false));
  }

  // ---- Popping ----

  /** The levels after level `d` has been given up. */
  function Popped(ls: seq<Level>, d: nat): seq<Level>
    requires 2 <= d < |ls| + 2
  {
    var reset := ls[d - 2 := ls[d - 2].(pos := 0, size := 0, cont := false)];
    if d - 1 >= 2 then reset[d - 3 := reset[d - 3].(pos := reset[d - 3].pos + 1)] else reset
  }

  lemma PopFrame(p: Problem, e: nat, ls: seq<Level>, v0: nat, v1: nat, start: nat, d: nat)
    requires Working(p, e, ls, v0, v1, start, d) && d > start
    ensures SameBelow(ls, Popped(ls, d), d - 1)
    ensures FrameAt(p, Popped(ls, d), v0, v1, d - 1, true) == FrameAt(p, ls, v0, v1, d - 1, false)
  {
    var ls' := Popped(ls, d);
    assert RowAt(ls', v0, v1, d - 1) == RowAt(ls, v0, v1, d - 1);
    assert Waiting(ls'[d - 3], true) == Waiting(ls[d - 3], false);
    assert Cursor(p, ls', d - 1) == Cursor(p, ls, d - 1);
  }

  lemma PopKeepsWorking(p: Problem, e: nat, ls: seq<Level>, v0: nat, v1: nat, start: nat, d: nat)
    requires Working(p, e, ls, v0, v1, start, d) && d > start
    ensures Working(p, e, Popped(ls, d), v0, v1, start, d - 1)
  {
    var ls' := Popped(ls, d);
    forall i | start <= i <= d - 1
      ensures Honest(p, e, ls', v0, v1, i)
    {
      assert Honest(p, e, ls, v0, v1, i);
      assert RowAt(ls', v0, v1, i) == RowAt(ls, v0, v1, i);
    }
  }

  /** An exhausted level with an empty queue has nothing to do. */
  lemma NothingTodo(p: Problem, ls: seq<Level>, v0: nat, v1: nat, d: nat)
    requires p.Valid() && 2 <= d < p.n && |ls| == p.n - 2 && forall i :: 0 <= i < d - 2 ==> ls[i].pos < |ls[i].queue|
    requires ls[d - 2].pos >= ls[d - 2].size && Exhausted(p, ls, d)
    ensures FrameAt(p, ls, v0, v1, d, true).todo == [] && FrameAt(p, ls, v0, v1, d, true).scan > 0
  {
    assert Waiting(ls[d - 2], true) == [];
  }

  /** Giving up an exhausted level leaves the pending output as it is. */
  lemma Pop(p: Problem, e: nat, ls: seq<Level>, v0: nat, v1: nat, start: nat, d: nat)
    requires Working(p, e, ls, v0, v1, start, d) && ls[d - 2].pos >= ls[d - 2].size && Exhausted(p, ls, d)
    ensures d > start ==>
      && Working(p, e, Popped(ls, d), v0, v1, start, d - 1)
      && Output(p, e, Frames(p, Popped(ls, d), v0, v1, start, d - 1, true)) == Output(p, e, Frames(p, ls, v0, v1, start, d, true))
      && Steps(p, e, Frames(p, Popped(ls, d), v0, v1, start, d - 1, true)) < Steps(p, e, Frames(p, ls, v0, v1, start, d, true))
    ensures d == start ==> Output(p, e, Frames(p, ls, v0, v1, start, d, true)) == []
  {
    hide Accepts, Candidates, Honest, Frames, FrameAt;
    var f, below := FrameAt(p, ls, v0, v1, d, true), Frames(p, ls, v0, v1, start, d - 1, false);
    FramesTop(p, ls, v0, v1, start, d);
    NothingTodo(p, ls, v0, v1, d);
    OutputCons(p, e, f, below);
    if d > start {
      PopKeepsWorking(p, e, ls, v0, v1, start, d);
      FramesTop(p, Popped(ls, d), v0, v1, start, d - 1);
      PopFrame(p, e, ls, v0, v1, start, d);
      FramesLocal(p, ls, Popped(ls, d), v0, v1, start, d - 2, false);
    }
  }

  // ---- Scanning ----

  /** `found` are the accepted candidates of `cs`, in order. */
  ghost predicate Sifted(p: Problem, row: Row, cs: seq<nat>, found: seq<nat>)
    requires p.Valid() && 1 <= |row| < p.n
    decreases |cs|
  {
    if cs == [] then found == []
    else if Accepts(p, row, cs[0]) then found != [] && found[0] == cs[0] && Sifted(p, row, cs[1..], found[1..])
    else Sifted(p, row, cs[1..], found)
  }

  /** Leaving out the rejected candidates changes neither the output nor raises the cost. */
  lemma {:induction false} SiftedCounts(p: Problem, e: nat, row: Row, cs: seq<nat>, found: seq<nat>)
    requires p.Valid() && 1 <= |row| < e <= p.n && Sifted(p, row, cs, found)
    ensures CompleteFrom(p, e, row, found) == CompleteFrom(p, e, row, cs)
    ensures Cost(p, e, row, found) <= Cost(p, e, row, cs)
    ensures forall k :: 0 <= k < |found| ==> Accepts(p, row, found[k])
    decreases |cs|
  {
    if cs != [] {
      if Accepts(p, row, cs[0]) {
        SiftedCounts(p, e, row, cs[1..], found[1..]);
      } else {
        SiftedCounts(p, e, row, cs[1..], found);
      }
    }
  }

  /** Level `d` after a scan that accepted `found` and consumed the list up to `next`; a scan that
      reaches the end of the list moves the mark past the cursor. */
  function Scanned(p: Problem, e: nat, ls: seq<Level>, d: nat, found: seq<nat>, next: nat, done: bool): seq<Level>
    requires p.Valid() && 2 <= d < e <= p.n && |ls| == p.n - 2
    requires |found| <= |ls[d - 2].queue|
  {
    var l := Level(if d < e - 1 then found + ls[d - 2].queue[|found|..] else ls[d - 2].queue,
                   if d < e - 1 then 0 else |found|, |found|,
                   Cursor(p, ls, d) + (if done then 1 else 0), if done then 0 else next, true);
    ls[d - 2 := l]
  }

  /** Where the scan of level `d` starts. */
  function ScanFrom(ls: seq<Level>, d: nat): nat
    requires 2 <= d < |ls| + 2
  {
    if ls[d - 2].cont then ls[d - 2].endNbr else 0
  }

  /** What a scan emits when `d` is the last level. */
  function Emitted(e: nat, row: Row, found: seq<nat>): seq<Row> {
    if |row| < e - 1 then [] else seq(|found|, i requires 0 <= i < |found| => row + [found[i]])
  }

  lemma {:induction false} LastLevel(p: Problem, e: nat, row: Row, found: seq<nat>)
    requires p.Valid() && 1 <= |row| == e - 1 && e <= p.n
    requires forall k :: 0 <= k < |found| ==> Accepts(p, row, found[k])
    ensures CompleteFrom(p, e, row, found) == Emitted(e, row, found)
  {
    if found != [] {
      LastLevel(p, e, row, found[1..]);
      assert Emitted(e, row, found) == [row + [found[0]]] + Emitted(e, row, found[1..]);
    }
  }

  ghost predicate ScanPre(p: Problem, e: nat, ls: seq<Level>, v0: nat, v1: nat, start: nat, d: nat, found: seq<nat>, next: nat, done: bool) {
    && Working(p, e, ls, v0, v1, start, d) && ls[d - 2].pos >= ls[d - 2].size && !Exhausted(p, ls, d)
    && |found| <= WARP_SIZE
    && (var all := Candidates(p, RowAt(ls, v0, v1, d));
      && ScanFrom(ls, d) <= next <= |all| && (done <==> next == |all|)
      && (ScanFrom(ls, d) < next || done)
      && Sifted(p, RowAt(ls, v0, v1, d), all[ScanFrom(ls, d)..next], found))
  }

  /** The frame of level `d` before and after a scan. */
  lemma ScanFrame(p: Problem, e: nat, ls: seq<Level>, v0: nat, v1: nat, start: nat, d: nat, found: seq<nat>, next: nat, done: bool)
    requires ScanPre(p, e, ls, v0, v1, start, d, found, next, done)
    ensures var row, o := RowAt(ls, v0, v1, d), ScanFrom(ls, d);
      var a, b := Candidates(p, row)[o..next], Candidates(p, row)[next..];
      && FrameAt(p, ls, v0, v1, d, true) == Frame(row, a + b, |a| + |b| + 2)
      && FrameAt(p, Scanned(p, e, ls, d, found, next, done), v0, v1, d, true)
           == Frame(row, (if d < e - 1 then found else []) + b, |b| + (if done then 1 else 2))
  {
    hide Accepts, Candidates, Sifted;
    var ls', row := Scanned(p, e, ls, d, found, next, done), RowAt(ls, v0, v1, d);
    var all, o := Candidates(p, row), ScanFrom(ls, d);
    assert RowAt(ls', v0, v1, d) == row && Cursor(p, ls', d) == Cursor(p, ls, d);
    assert Honest(p, e, ls, v0, v1, d);
    assert Waiting(ls[d - 2], true) == [];
    assert all[o..] == all[o..next] + all[next..];
    assert [] + all[o..] == all[o..];
    assert Waiting(ls'[d - 2], true) == if d < e - 1 then found else [];
    assert done ==> all[next..] == [];
  }

  lemma ScanKeepsWorking(p: Problem, e: nat, ls: seq<Level>, v0: nat, v1: nat, start: nat, d: nat, found: seq<nat>, next: nat, done: bool)
    requires Working(p, e, ls, v0, v1, start, d) && |found| <= WARP_SIZE
    requires next <= |Candidates(p, RowAt(ls, v0, v1, d))|
    requires forall k :: 0 <= k < |found| ==> Accepts(p, RowAt(ls, v0, v1, d), found[k])
    ensures Working(p, e, Scanned(p, e, ls, d, found, next, done), v0, v1, start, d)
  {
    hide Accepts, Candidates;
    var ls' := Scanned(p, e, ls, d, found, next, done);
    forall i | start <= i <= d
      ensures Honest(p, e, ls', v0, v1, i)
    {
      assert Honest(p, e, ls, v0, v1, i);
      assert RowAt(ls', v0, v1, i) == RowAt(ls, v0, v1, i);
    }
  }

  lemma ScanBalance(p: Problem, e: nat, row: Row, a: seq<nat>, b: seq<nat>, found: seq<nat>, done: bool, below: seq<Frame>)
    requires p.Valid() && e <= p.n && Short(below, e) && 1 <= |row| < e
    requires Sifted(p, row, a, found) && (a != [] || done)
    ensures var f, f' := Frame(row, a + b, |a| + |b| + 2), Frame(row, (if |row| < e - 1 then found else []) + b, |b| + (if done then 1 else 2));
      && Short([f] + below, e) && Short([f'] + below, e)
      && Emitted(e, row, found) + Output(p, e, [f'] + below) == Output(p, e, [f] + below)
      && Steps(p, e, [f'] + below) < Steps(p, e, [f] + below)
  {
    SiftedCounts(p, e, row, a, found);
    CompleteFromConcat(p, e, row, a, b);
    CostConcat(p, e, row, a, b);
    OutputCons(p, e, Frame(row, a + b, |a| + |b| + 2), below);
    OutputCons(p, e, Frame(row, (if |row| < e - 1 then found else []) + b, |b| + (if done then 1 else 2)), below);
    if |row| < e - 1 {
      CompleteFromConcat(p, e, row, found, b);
      CostConcat(p, e, row, found, b);
    } else {
      LastLevel(p, e, row, found);
      assert [] + b == b;
      Assoc(Emitted(e, row, found), CompleteFrom(p, e, row, b), Output(p, e, below));
    }
  }

  /** A scan moves accepted candidates from the list to the queue, or to the output at the last
      level, and loses none. */
  lemma Scan(p: Problem, e: nat, ls: seq<Level>, v0: nat, v1: nat, start: nat, d: nat, found: seq<nat>, next: nat, done: bool)
    requires ScanPre(p, e, ls, v0, v1, start, d, found, next, done)
    ensures Working(p, e, Scanned(p, e, ls, d, found, next, done), v0, v1, start, d)
    ensures Emitted(e, RowAt(ls, v0, v1, d), found) + Output(p, e, Frames(p, Scanned(p, e, ls, d, found, next, done), v0, v1, start, d, true))
         == Output(p, e, Frames(p, ls, v0, v1, start, d, true))
    ensures Steps(p, e, Frames(p, Scanned(p, e, ls, d, found, next, done), v0, v1, start, d, true))
          < Steps(p, e, Frames(p, ls, v0, v1, start, d, true))
  {
    var row, a, b, below := ScanFrames(p, e, ls, v0, v1, start, d, found, next, done);
    SiftedCounts(p, e, row, a, found);
    ScanKeepsWorking(p, e, ls, v0, v1, start, d, found, next, done);
    ScanBalance(p, e, row, a, b, found, done, below);
  }

  lemma ScanFrames(p: Problem, e: nat, ls: seq<Level>, v0: nat, v1: nat, start: nat, d: nat, found: seq<nat>, next: nat, done: bool)
    returns (row: Row, a: seq<nat>, b: seq<nat>, below: seq<Frame>)
    requires ScanPre(p, e, ls, v0, v1, start, d, found, next, done)
    ensures row == RowAt(ls, v0, v1, d) && Sifted(p, row, a, found) && (a != [] || done) && Short(below, e)
    ensures Frames(p, ls, v0, v1, start, d, true) == [Frame(row, a + b, |a| + |b| + 2)] + below
    ensures Frames(p, Scanned(p, e, ls, d, found, next, done), v0, v1, start, d, true)
         == [Frame(row, (if d < e - 1 then found else []) + b, |b| + (if done then 1 else 2))] + below
  {
    hide Accepts, Candidates, Honest, Sifted, Frames, FrameAt;
    FramesTop(p, ls, v0, v1, start, d);
    FramesTop(p, Scanned(p, e, ls, d, found, next, done), v0, v1, start, d);
    row := RowAt(ls, v0, v1, d);
    var all, o := Candidates(p, row), ScanFrom(ls, d);
    a, b, below := all[o..next], all[next..], Frames(p, ls, v0, v1, start, d - 1, false);
    ScanFrame(p, e, ls, v0, v1, start, d, found, next, done);
    FramesLocal(p, ls, Scanned(p, e, ls, d, found, next, done), v0, v1, start, d - 1, false);
  }

  // ---- One turn of the machine ----

  /** The machine's transition relation. */
  ghost predicate Turned(p: Problem, e: nat, v0: nat, v1: nat, start: nat,
                         ls: seq<Level>, d: nat, out: seq<Row>, ls': seq<Level>, d': int, out': seq<Row>)
    requires p.Valid() && 2 <= start <= d < e <= p.n && |ls| == p.n - 2
  {
    if ls[d - 2].pos < ls[d - 2].size then ls' == ls && d' == d + 1 < e && out' == out
    else if Exhausted(p, ls, d) then ls' == Popped(ls, d) && d' == d - 1 && out' == out
    else d' == d && Filled(p, e, v0, v1, start, ls, d, out, ls', out')
  }

  ghost predicate Filled(p: Problem, e: nat, v0: nat, v1: nat, start: nat,
                         ls: seq<Level>, d: nat, out: seq<Row>, ls': seq<Level>, out': seq<Row>)
  {
    exists found, next, done :: ScanPre(p, e, ls, v0, v1, start, d, found, next, done) &&
      ls' == Scanned(p, e, ls, d, found, next, done) && out' == out + Emitted(e, RowAt(ls, v0, v1, d), found)
  }

  /** What the rest of a run owes: the rows still to come and a bound on the turns left. */
  ghost predicate Owes(p: Problem, e: nat, v0: nat, v1: nat, start: nat, ls: seq<Level>, d: int, toCome: seq<Row>, left: nat) {
    if d < start then toCome == [] && left == 0
    else
      && Working(p, e, ls, v0, v1, start, d)
      && toCome == Output(p, e, Frames(p, ls, v0, v1, start, d, true))
      && left == 1 + Steps(p, e, Frames(p, ls, v0, v1, start, d, true))
  }

  lemma DownOwes(p: Problem, e: nat, v0: nat, v1: nat, start: nat, ls: seq<Level>, d: nat, toCome: seq<Row>, left: nat)
    returns (left': nat)
    requires Owes(p, e, v0, v1, start, ls, d, toCome, left) && start <= d < e - 1 && ls[d - 2].pos < ls[d - 2].size
    ensures Owes(p, e, v0, v1, start, ls, d + 1, toCome, left') && left' < left
  {
    Descend(p, e, ls, v0, v1, start, d);
    left' := 1 + Steps(p, e, Frames(p, ls, v0, v1, start, d + 1, true));
  }

  lemma PopOwes(p: Problem, e: nat, v0: nat, v1: nat, start: nat, ls: seq<Level>, d: nat, toCome: seq<Row>, left: nat)
    returns (left': nat)
    requires Owes(p, e, v0, v1, start, ls, d, toCome, left) && start <= d
    requires ls[d - 2].pos >= ls[d - 2].size && Exhausted(p, ls, d)
    ensures Owes(p, e, v0, v1, start, Popped(ls, d), d - 1, toCome, left') && left' < left
  {
    Pop(p, e, ls, v0, v1, start, d);
    left' := if d == start then 0 else 1 + Steps(p, e, Frames(p, Popped(ls, d), v0, v1, start, d - 1, true));
  }

  lemma ScanOwes(p: Problem, e: nat, v0: nat, v1: nat, start: nat, ls: seq<Level>, d: nat, toCome: seq<Row>, left: nat,
                 found: seq<nat>, next: nat, done: bool)
    returns (toCome': seq<Row>, left': nat)
    requires Owes(p, e, v0, v1, start, ls, d, toCome, left) && start <= d
    requires ScanPre(p, e, ls, v0, v1, start, d, found, next, done)
    ensures Owes(p, e, v0, v1, start, Scanned(p, e, ls, d, found, next, done), d, toCome', left') && left' < left
    ensures Emitted(e, RowAt(ls, v0, v1, d), found) + toCome' == toCome
  {
    Scan(p, e, ls, v0, v1, start, d, found, next, done);
    var fs := Frames(p, Scanned(p, e, ls, d, found, next, done), v0, v1, start, d, true);
    toCome', left' := Output(p, e, fs), 1 + Steps(p, e, fs);
  }

  /** Every turn takes what it emits from what was owed and brings the machine closer to its end. */
  lemma TurnOwes(p: Problem, e: nat, v0: nat, v1: nat, start: nat,
                 ls: seq<Level>, d: nat, out: seq<Row>, ls': seq<Level>, d': int, out': seq<Row>, toCome: seq<Row>, left: nat)
    returns (toCome': seq<Row>, left': nat)
    requires Owes(p, e, v0, v1, start, ls, d, toCome, left) && start <= d
    requires Turned(p, e, v0, v1, start, ls, d, out, ls', d', out')
    ensures Owes(p, e, v0, v1, start, ls', d', toCome', left') && left' < left
    ensures out' + toCome' == out + toCome && start - 1 <= d'
  {
    if ls[d - 2].pos < ls[d - 2].size {
      toCome' := toCome;
      left' := DownOwes(p, e, v0, v1, start, ls, d, toCome, left);
    } else if Exhausted(p, ls, d) {
      toCome' := toCome;
      left' := PopOwes(p, e, v0, v1, start, ls, d, toCome, left);
    } else {
      var found, next, done :| ScanPre(p, e, ls, v0, v1, start, d, found, next, done) &&
        ls' == Scanned(p, e, ls, d, found, next, done) && out' == out + Emitted(e, RowAt(ls, v0, v1, d), found);
      toCome', left' := ScanOwes(p, e, v0, v1, start, ls, d, toCome, left, found, next, done);
      Assoc(out, Emitted(e, RowAt(ls, v0, v1, d), found), toCome');
    }
  }
}
