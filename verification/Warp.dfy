/** One GPU warp extending one partial match: 32-wide scans with compaction, an explicit stack of
    levels updated in place, and rows emitted at the last level. */
module Warp {
  import opened MatchSearch
  import opened GpuSearch
  import opened QueryPlan
  import opened WarpSpec

  /** The candidates of `cs` that pass the mask and the injectivity test. */
  function FreshOf(p: Problem, row: Row, cs: seq<nat>): seq<nat> {
    if cs == [] then [] else (if Fresh(p, row, cs[0]) then [cs[0]] else []) + FreshOf(p, row, cs[1..])
  }

  function JoinedOf(p: Problem, row: Row, cs: seq<nat>): seq<nat>
    requires p.Valid() && 1 <= |row| < p.n
  {
    if cs == [] then [] else (if Joined(p, row, cs[0]) then [cs[0]] else []) + JoinedOf(p, row, cs[1..])
  }

  lemma {:induction false} FreshConcat(p: Problem, row: Row, a: seq<nat>, b: seq<nat>)
    ensures FreshOf(p, row, a + b) == FreshOf(p, row, a) + FreshOf(p, row, b)
    decreases |a|
  {
    if a == [] {
      assert a + b == b;
    } else {
      FreshConcat(p, row, a[1..], b);
      assert (a + b)[1..] == a[1..] + b;
    }
  }

  lemma {:induction false} JoinedConcat(p: Problem, row: Row, a: seq<nat>, b: seq<nat>)
    requires p.Valid() && 1 <= |row| < p.n
    ensures JoinedOf(p, row, a + b) == JoinedOf(p, row, a) + JoinedOf(p, row, b)
    decreases |a|
  {
    if a == [] {
      assert a + b == b;
    } else {
      JoinedConcat(p, row, a[1..], b);
      assert (a + b)[1..] == a[1..] + b;
    }
  }

  /** The two filters in sequence accept what the search accepts. */
  lemma {:induction false} FiltersSift(p: Problem, row: Row, cs: seq<nat>)
    requires p.Valid() && 1 <= |row| < p.n
    ensures Sifted(p, row, cs, JoinedOf(p, row, FreshOf(p, row, cs)))
    decreases |cs|
  {
    if cs != [] {
      var tail := FreshOf(p, row, cs[1..]);
      FiltersSift(p, row, cs[1..]);
      var kept := JoinedOf(p, row, tail);
      assert [] + tail == tail && [] + kept == kept;
      assert ([cs[0]] + tail)[1..] == tail && ([cs[0]] + kept)[1..] == kept;
    }
  }

  /** What the compaction has kept: `nbrs` are the fresh ones of `cs[..last]`, and until the 32
      places are full nothing fresh lies between `last` and the scan position `x`. */
  ghost predicate Compacted(p: Problem, row: Row, cs: seq<nat>, from: nat, x: nat, nbrs: seq<nat>, last: nat) {
    && from <= last <= |cs| && from <= x
    && |nbrs| <= WARP_SIZE
    && (nbrs == [] ==> last == from)
    && (nbrs != [] ==> from < last)
    && FreshOf(p, row, cs[from..last]) == nbrs
    && (|nbrs| < WARP_SIZE ==> last <= x)
    && (|nbrs| < WARP_SIZE && x <= |cs| ==> FreshOf(p, row, cs[last..x]) == [])
    && (|nbrs| < WARP_SIZE && x > |cs| ==> FreshOf(p, row, cs[last..]) == [])
  }

  lemma FreshOne(p: Problem, row: Row, c: nat)
    ensures FreshOf(p, row, [c]) == if Fresh(p, row, c) then [c] else []
  {
  }

  lemma FreshNone(p: Problem, row: Row, cs: seq<nat>, x: nat)
    requires x <= |cs|
    ensures FreshOf(p, row, cs[x..x]) == []
    ensures x == |cs| ==> FreshOf(p, row, cs[x..]) == []
  {
  }

  lemma CompactOne(p: Problem, row: Row, cs: seq<nat>, from: nat, x: nat, nbrs: seq<nat>, last: nat)
    requires Compacted(p, row, cs, from, x, nbrs, last)
    ensures x >= |cs| || |nbrs| == WARP_SIZE || !Fresh(p, row, cs[x]) ==> Compacted(p, row, cs, from, x + 1, nbrs, last)
    ensures x < |cs| && |nbrs| < WARP_SIZE && Fresh(p, row, cs[x]) ==>
      Compacted(p, row, cs, from, x + 1, nbrs + [cs[x]], x + 1)
  {
    hide FreshOf, Fresh;
    if x < |cs| && |nbrs| < WARP_SIZE {
      assert cs[last..x + 1] == cs[last..x] + [cs[x]];
      FreshConcat(p, row, cs[last..x], [cs[x]]);
      FreshOne(p, row, cs[x]);
      if Fresh(p, row, cs[x]) {
        assert cs[from..x + 1] == cs[from..last] + cs[last..x + 1];
        FreshConcat(p, row, cs[from..last], cs[last..x + 1]);
        FreshNone(p, row, cs, x + 1);
      } else {
        assert x + 1 == |cs| ==> cs[last..x + 1] == cs[last..];
      }
    } else {
      assert x == |cs| ==> cs[last..x] == cs[last..];
    }
    if x == |cs| { assert cs[last..x] == cs[last..]; }
  }

  /** A level below the starting depth: it holds one matched vertex. */
  function HeldLevel(v: nat): Level { Level(Buffer(v), 0, 1, 0, 0, false) }

  /** The single frame of a fresh stack, and a bound on the turns it takes. */
  function StartFrame(p: Problem, row: Row): Frame
    requires p.Valid() && 1 <= |row| < p.n
  {
    Frame(row, Candidates(p, row), |Candidates(p, row)| + 2)
  }

  ghost function StartBound(p: Problem, e: nat, row: Row): nat
    requires p.Valid() && 1 <= |row| < e <= p.n
  {
    1 + Steps(p, e, [StartFrame(p, row)])
  }

  lemma FreshLevels(p: Problem, e: nat, ls: seq<Level>, row: Row)
    requires p.Valid() && 2 <= |row| < e <= p.n && |ls| == p.n - 2
    requires forall k :: 0 <= k < |ls| ==> ls[k] == if k < |row| - 2 then HeldLevel(row[k + 2]) else EMPTY_LEVEL
    ensures Working(p, e, ls, row[0], row[1], |row|, |row|)
    ensures RowAt(ls, row[0], row[1], |row|) == row
    ensures FrameAt(p, ls, row[0], row[1], |row|, true) == StartFrame(p, row)
  {
    assert RowAt(ls, row[0], row[1], |row|) == row;
    assert Honest(p, e, ls, row[0], row[1], |row|);
    assert Waiting(ls[|row| - 2], true) == [];
    assert [] + Candidates(p, row) == Candidates(p, row);
  }

  /** A fresh stack owes every completion of its row. */
  lemma FreshStack(p: Problem, e: nat, ls: seq<Level>, row: Row)
    requires p.Valid() && 2 <= |row| < e <= p.n && |ls| == p.n - 2
    requires forall k :: 0 <= k < |ls| ==> ls[k] == if k < |row| - 2 then HeldLevel(row[k + 2]) else EMPTY_LEVEL
    ensures Owes(p, e, row[0], row[1], |row|, ls, |row|, Complete(p, e, row), StartBound(p, e, row))
  {
    FreshLevels(p, e, ls, row);
    var f := StartFrame(p, row);
    OutputCons(p, e, f, []);
    assert [f] + [] == [f] == Frames(p, ls, row[0], row[1], |row|, |row|, true);
  }

  class WarpRun {
    const plan: Plan
    const main: Lists
    const upd: Lists
    const ei: nat
    const mask: (nat, nat) -> bool
    const start: nat
    const end: nat
    const v0: nat
    const v1: nat
    const levels: array<Level>
    var depth: nat
    var out: seq<Row>

    /** The search problem that the warp works on. */
    ghost const p: Problem

    /** The row the warp starts from. */
    ghost const row0: Row

    ghost predicate Static() {
      && plan.Valid() && Staged(main, upd) && p == SearchFor(plan, main, upd, ei, mask) && 2 <= start < end <= plan.n && levels.Length == plan.n - 2
      && |row0| == start && row0[..2] == [v0, v1]
    }

    ghost predicate Inv()
      reads this, levels
    {
      Static() && Working(p, end, levels[..], v0, v1, start, depth)
    }

    /** `row` is the partial match that the cursors below the current depth spell out. */
    ghost predicate At(row: Row)
      reads this, levels
    {
      && Static() && start <= depth < end
      && (forall i :: 0 <= i < depth - 2 ==> levels[i].pos < |levels[i].queue|)
      && RowAt(levels[..], v0, v1, depth) == row
    }

    constructor (plan: Plan, main: Lists, upd: Lists, ei: nat, mask: (nat, nat) -> bool, row: Row, end: nat)
      requires plan.Valid() && Staged(main, upd) && 2 <= |row| < end <= plan.n
      ensures Inv() && depth == start && out == [] && fresh(levels)
      ensures row0 == row && this.end == end && this.ei == ei && p == SearchFor(plan, main, upd, ei, mask)
      ensures Owes(p, end, v0, v1, start, levels[..], start, Complete(p, end, row), StartBound(p, end, row))
    {
      this.plan, this.main, this.upd, this.ei, this.mask := plan, main, upd, ei, mask;
      this.start, this.end, this.v0, this.v1, this.row0 := |row|, end, row[0], row[1], row;
      p := SearchFor(plan, main, upd, ei, mask);
      var n := plan.n - 2;
      levels := new Level[n](_ => EMPTY_LEVEL);
      depth, out := |row|, [];
      new;
      LoadRow(row);
      FreshStack(p, end, levels[..], row);
    }

    /** Puts the matched vertices from position 2 on into the lowest levels. */
    method LoadRow(row: Row)
      requires 2 <= |row| <= levels.Length + 2 && forall k :: 0 <= k < levels.Length ==> levels[k] == EMPTY_LEVEL
      modifies levels
      ensures forall k :: 0 <= k < levels.Length ==> levels[k] == if k < |row| - 2 then HeldLevel(row[k + 2]) else EMPTY_LEVEL
    {
      for i := 0 to |row| - 2
        invariant forall k :: 0 <= k < levels.Length ==> levels[k] == if k < i then HeldLevel(row[k + 2]) else EMPTY_LEVEL
      {
        levels[i] := HeldLevel(row[i + 2]);
      }
    }

    /** The data vertex matched at position `i`. */
    method Matched(i: nat, ghost row: Row) returns (v: nat)
      requires At(row) && i < depth
      ensures v == row[i]
    {
      if i == 0 { v := v0; }
      else if i == 1 { v := v1; }
      else { v := levels[i - 2].queue[levels[i - 2].pos]; }
    }

    method IsFresh(nbr: nat, ghost row: Row) returns (ok: bool)
      requires At(row)
      ensures ok <==> Fresh(p, row, nbr)
    {
      if !mask(depth, nbr) { return false; }
      for i := 0 to depth
        invariant nbr !in row[..i]
      {
        var v := Matched(i, row);
        if v == nbr {
          assert nbr in row;
          return false;
        }
      }
      assert row[..depth] == row;
      return true;
    }

    /** Is `nbr` in the lists of the other backward neighbours?  Searches the base list, then the
        visible update list. */
    method IsJoined(nbr: nat, ghost row: Row) returns (ok: bool)
      requires At(row)
      ensures ok <==> Joined(p, row, nbr)
    {
      for k := 1 to |plan.bni[depth]|
        invariant forall i :: 1 <= i < k ==> nbr in p.lists(plan.bni[depth][i], depth, row[plan.bni[depth][i]])
      {
        var j := plan.bni[depth][k];
        var v := Matched(j, row);
        var idx := plan.Dir(j, depth);
        var found := InLists(Base(plan, main, upd, ei, idx, v), App(plan, upd, ei, idx, v), plan.dirToEdge(idx) < ei, nbr);
        assert p.lists(j, depth, v) == Base(plan, main, upd, ei, idx, v) + App(plan, upd, ei, idx, v);
        if !found { return false; }
      }
      return true;
    }

    /** Collects the next (at most 32) fresh candidates, 32 lanes at a time. */
    method Compact(cand: seq<nat>, from: nat, ghost row: Row) returns (nbrs: seq<nat>, last: nat)
      requires At(row) && from <= |cand|
      ensures |nbrs| <= WARP_SIZE && from <= last <= |cand|
      ensures nbrs == FreshOf(p, row, cand[from..last])
      ensures nbrs != [] ==> from < last
      ensures nbrs == [] ==> last == |cand|
    {
      nbrs, last := [], from;
      var readOffset, count := from, 0;
      assert cand[from..from] == [];
      while count < WARP_SIZE && readOffset < |cand|
        invariant from <= readOffset && Compacted(p, row, cand, from, readOffset, nbrs, last)
        invariant |nbrs| == if count < WARP_SIZE then count else WARP_SIZE
        decreases |cand| - readOffset
      {
        count, nbrs, last := Batch(cand, from, readOffset, count, nbrs, last, row);
        readOffset := readOffset + WARP_SIZE;
      }
      if nbrs == [] {
        assert cand[last..|cand|] == cand[last..];
        last := |cand|;
      }
    }

    /** One batch of 32 lanes; what does not fit any more is left for the next scan. */
    method Batch(cand: seq<nat>, from: nat, readOffset: nat, count: nat, nbrs: seq<nat>, last: nat, ghost row: Row)
      returns (count': nat, nbrs': seq<nat>, last': nat)
      requires At(row) && Compacted(p, row, cand, from, readOffset, nbrs, last)
      requires |nbrs| == if count < WARP_SIZE then count else WARP_SIZE
      ensures Compacted(p, row, cand, from, readOffset + WARP_SIZE, nbrs', last')
      ensures |nbrs'| == if count' < WARP_SIZE then count' else WARP_SIZE
    {
      nbrs', last', count' := nbrs, last, count;
      for lane := 0 to WARP_SIZE
        invariant Compacted(p, row, cand, from, readOffset + lane, nbrs', last')
        invariant |nbrs'| == if count' < WARP_SIZE then count' else WARP_SIZE
      {
        count', nbrs', last' := Lane(cand, from, readOffset + lane, count', nbrs', last', row);
      }
    }

    /** One lane: a fresh candidate takes the place of its rank if that is among the 32. */
    method Lane(cand: seq<nat>, from: nat, x: nat, count: nat, nbrs: seq<nat>, last: nat, ghost row: Row)
      returns (count': nat, nbrs': seq<nat>, last': nat)
      requires At(row) && Compacted(p, row, cand, from, x, nbrs, last)
      requires |nbrs| == if count < WARP_SIZE then count else WARP_SIZE
      ensures Compacted(p, row, cand, from, x + 1, nbrs', last')
      ensures |nbrs'| == if count' < WARP_SIZE then count' else WARP_SIZE
    {
      nbrs', last', count' := nbrs, last, count;
      CompactOne(p, row, cand, from, x, nbrs, last);
      if x < |cand| {
        var ok := IsFresh(cand[x], row);
        if ok {
          if count < WARP_SIZE {
            nbrs', last' := nbrs + [cand[x]], x + 1;
          }
          count' := count + 1;
        }
      }
    }

    /** Keeps the compacted candidates that are in all other backward lists. */
    method Filter(nbrs: seq<nat>, ghost row: Row) returns (found: seq<nat>)
      requires At(row)
      ensures found == JoinedOf(p, row, nbrs) && |found| <= |nbrs|
    {
      found := [];
      for lane := 0 to |nbrs|
        invariant found == JoinedOf(p, row, nbrs[..lane]) && |found| <= lane
      {
        var ok := IsJoined(nbrs[lane], row);
        assert nbrs[..lane + 1] == nbrs[..lane] + [nbrs[lane]];
        JoinedConcat(p, row, nbrs[..lane], [nbrs[lane]]);
        if ok { found := found + [nbrs[lane]]; }
      }
      assert nbrs[..|nbrs|] == nbrs;
    }

    /** Gives up the exhausted current level and advances the cursor of the one above it. */
    method Give()
      requires Static() && start <= depth < end
      modifies this`depth, levels
      ensures depth == old(depth) - 1 && levels[..] == Popped(old(levels[..]), old(depth))
    {
      levels[depth - 2] := levels[depth - 2].(pos := 0, size := 0, cont := false);
      depth := depth - 1;
      if depth >= 2 {
        levels[depth - 2] := levels[depth - 2].(pos := levels[depth - 2].pos + 1);
      }
    }

    /** The list the current level scans, the cursor it belongs to, and where the scan goes on. */
    method ReadList(ghost row: Row) returns (cand: seq<nat>, cursor: nat, from: nat)
      requires At(row)
      ensures cand == Candidates(p, row)
      ensures cursor == Cursor(p, levels[..], depth)
      ensures from == ScanFrom(levels[..], depth)
    {
      var l := levels[depth - 2];
      var preQv := plan.bni[depth][0];
      cursor := if preQv < 2 then 0 else levels[preQv - 2].pos;
      var preDv := Matched(preQv, row);
      var idx := plan.Dir(preQv, depth);
      cand := Base(plan, main, upd, ei, idx, preDv) + App(plan, upd, ei, idx, preDv);
      from := if l.cont then l.endNbr else 0;
    }

    /** Scans on in the current level's list. */
    method ScanOn(ghost row: Row) returns (cursor: nat, found: seq<nat>, last: nat, atEnd: bool)
      requires Inv() && levels[depth - 2].pos >= levels[depth - 2].size && !Exhausted(p, levels[..], depth)
      requires row == RowAt(levels[..], v0, v1, depth)
      ensures ScanPre(p, end, levels[..], v0, v1, start, depth, found, last, atEnd)
      ensures cursor == Cursor(p, levels[..], depth) && (levels[depth - 2].cont ==> levels[depth - 2].endV == cursor)
    {
      var cand, from;
      assert Honest(p, end, levels[..], v0, v1, depth);
      cand, cursor, from := ReadList(row);
      var nbrs;
      nbrs, last := Compact(cand, from, row);
      found := Filter(nbrs, row);
      atEnd := |nbrs| == 0 || last >= |cand|;
      FiltersSift(p, row, cand[from..last]);
    }

    /** Scans on in the current level's list and queues, or emits, what it accepts. */
    method Fill()
      requires Inv() && levels[depth - 2].pos >= levels[depth - 2].size && !Exhausted(p, levels[..], depth)
      modifies this`out, levels
      ensures Filled(p, end, v0, v1, start, old(levels[..]), depth, old(out), levels[..], out)
    {
      ghost var row := RowAt(levels[..], v0, v1, depth);
      var cursor, found, last, atEnd := ScanOn(row);
      if depth == end - 1 {
        Emit(found, row);
      }
      Store(cursor, found, last, atEnd);
    }

    /** Writes the queue and the scan marks of the current level. */
    method Store(cursor: nat, accepted: seq<nat>, last: nat, atEnd: bool)
      requires Static() && start <= depth < end
      requires cursor == Cursor(p, levels[..], depth) && |accepted| <= |levels[depth - 2].queue|
      requires levels[depth - 2].cont ==> levels[depth - 2].endV == cursor
      modifies levels
      ensures levels[..] == Scanned(p, end, old(levels[..]), depth, accepted, last, atEnd)
    {
      var l := levels[depth - 2];
      if !l.cont {
        l := l.(endV := cursor, endNbr := 0, cont := true);
      }
      if atEnd {
        l := l.(endV := l.endV + 1, endNbr := 0);
      } else {
        l := l.(endNbr := last);
      }
      if depth < end - 1 {
        l := l.(queue := accepted + l.queue[|accepted|..], pos := 0, size := |accepted|);
      } else {
        l := l.(pos := |accepted|, size := |accepted|);
      }
      levels[depth - 2] := l;
    }

    /** Writes one full row per accepted candidate of the last level. */
    method Emit(accepted: seq<nat>, ghost row: Row)
      requires At(row) && depth == end - 1
      modifies this`out
      ensures out == old(out) + Emitted(end, row, accepted)
    {
      for rank := 0 to |accepted|
        invariant At(row)
        invariant out == old(out) + Emitted(end, row, accepted[..rank])
      {
        var copy := CopyRow(row);
        out := out + [copy + [accepted[rank]]];
        assert Emitted(end, row, accepted[..rank + 1]) == Emitted(end, row, accepted[..rank]) + [row + [accepted[rank]]];
      }
      assert accepted[..|accepted|] == accepted;
    }

    method CopyRow(ghost row: Row) returns (copy: Row)
      requires At(row)
      ensures copy == row
    {
      copy := [];
      for j := 0 to depth
        invariant copy == row[..j]
      {
        var v := Matched(j, row);
        copy := copy + [v];
      }
    }

    /** One turn of the machine: give up the level, scan on, or move to the next level. */
    method Turn()
      requires Inv()
      modifies this`depth, this`out, levels
      ensures Turned(p, end, v0, v1, start, old(levels[..]), old(depth), old(out), levels[..], depth, out)
    {
      var l := levels[depth - 2];
      if l.pos >= l.size {
        var preQv := plan.bni[depth][0];
        var cursor := if preQv < 2 then 0 else levels[preQv - 2].pos;
        if l.cont && l.endV > cursor {
          Give();
        } else {
          Fill();
        }
      } else {
        assert Honest(p, end, levels[..], v0, v1, depth);
        if depth < end - 1 {
          depth := depth + 1;
        }
      }
    }

    /** Runs the stack machine until it leaves the starting level: it emits every completion of the
        row exactly once, in the order of the recursive search. */
    method Extend(ghost left: nat)
      requires Static() && depth == start && out == []
      requires Owes(p, end, v0, v1, start, levels[..], start, Complete(p, end, row0), left)
      modifies this`depth, this`out, levels
      ensures out == Complete(p, end, row0)
    {
      ghost var toCome, turns := Complete(p, end, row0), left;
      while depth >= start
        invariant start - 1 <= depth && Static()
        invariant Owes(p, end, v0, v1, start, levels[..], depth, toCome, turns)
        invariant out + toCome == Complete(p, end, row0)
        decreases if depth >= start then turns else 0
      {
        ghost var ls0, d0, out0 := levels[..], depth, out;
        Turn();
        toCome, turns := TurnOwes(p, end, v0, v1, start, ls0, d0, out0, levels[..], depth, out, toCome, turns);
      }
    }
  }

  /** Extends one row to depth `end` with a fresh warp. */
  method ExtendRow(plan: Plan, main: Lists, upd: Lists, ei: nat, mask: (nat, nat) -> bool, row: Row, end: nat) returns (rows: seq<Row>)
    requires plan.Valid() && Staged(main, upd) && 2 <= |row| < end <= plan.n
    ensures rows == Complete(SearchFor(plan, main, upd, ei, mask), end, row)
  {
    var warp := new WarpRun(plan, main, upd, ei, mask, row, end);
    warp.Extend(StartBound(warp.p, end, row));
    rows := warp.out;
  }
}
