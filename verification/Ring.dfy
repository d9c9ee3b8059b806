/** The cyclic buffer that holds the frontiers between passes. */
module Ring {

  lemma WrapAdd(cap: nat, x: nat, k: nat)
    requires cap > 0
    ensures (x % cap + k) % cap == (x + k) % cap
  {
    var q := x / cap;
    assert x + k == cap * q + (x % cap + k);
    Shift(cap, q, x % cap + k);
  }

  lemma {:induction false} Shift(cap: nat, q: nat, y: nat)
    requires cap > 0
    ensures (cap * q + y) % cap == y % cap
    decreases q
  {
    if q > 0 {
      Shift(cap, q - 1, y);
      var z := cap * (q - 1) + y;
      assert cap * q + y == z + cap;
      ShiftOne(cap, z);
    }
  }

  lemma ShiftOne(cap: nat, z: nat)
    requires cap > 0
    ensures (z + cap) % cap == z % cap
  {
    var r, q := z % cap, z / cap;
    assert z + cap == cap * (q + 1) + r;
    Unique(cap, z + cap, q + 1, r);
  }

  lemma Unique(cap: nat, x: nat, q: nat, r: nat)
    requires r < cap && x == cap * q + r
    ensures x % cap == r
  {
    var q', r' := x / cap, x % cap;
    assert x == cap * q' + r';
    if q' < q { Scale(cap, q' + 1, q); }
    if q' > q { Scale(cap, q + 1, q'); }
  }

  lemma Scale(cap: nat, a: nat, b: nat)
    requires a <= b
    ensures cap * a <= cap * b
  {
  }

  /** Positions less than a full turn apart are different slots. */
  lemma WrapDistinct(cap: nat, x: nat, y: nat)
    requires cap > 0 && x < y < x + cap
    ensures x % cap != y % cap
  {
    if x % cap == y % cap {
      var k := y - x;
      var r, q := x % cap, x / cap;
      if r + k < cap { Unique(cap, y, q, r + k); } else { Unique(cap, y, q + 1, r + k - cap); }
    }
  }

  /** The slot of the word at distance `k` from unwrapped position `from`. */
  function SlotOf(cap: nat, from: nat, k: nat): (s: nat)
    requires cap > 0
    ensures s < cap
  {
    (from + k) % cap
  }

  lemma SlotAdd(cap: nat, from: nat, a: nat, b: nat)
    requires cap > 0
    ensures (SlotOf(cap, from, a) + b) % cap == SlotOf(cap, from, a + b)
  {
    WrapAdd(cap, from + a, b);
  }

  /** The buffer holds `ws` from position `from` on. */
  ghost predicate Holds(buf: seq<nat>, from: nat, ws: seq<nat>)
    requires |buf| > 0
  {
    forall k :: 0 <= k < |ws| ==> buf[SlotOf(|buf|, from, k)] == ws[k]
  }

  /** Writing behind `ws` overwrites none of it, as long as a slot is left. */
  lemma HoldsWrite(buf: seq<nat>, from: nat, ws: seq<nat>, w: nat)
    requires 0 < |buf| && |ws| < |buf| && Holds(buf, from, ws)
    ensures Holds(buf[SlotOf(|buf|, from, |ws|) := w], from, ws + [w])
  {
    forall k | 0 <= k < |ws|
      ensures SlotOf(|buf|, from, k) != SlotOf(|buf|, from, |ws|)
    {
      WrapDistinct(|buf|, from + k, from + |ws|);
    }
  }

  lemma HoldsDrop(buf: seq<nat>, from: nat, ws: seq<nat>, n: nat)
    requires 0 < |buf| && n <= |ws| && Holds(buf, from, ws)
    ensures Holds(buf, from + n, ws[n..])
  {
    forall k | 0 <= k < |ws| - n
      ensures buf[SlotOf(|buf|, from + n, k)] == ws[n..][k]
    {
      assert SlotOf(|buf|, from + n, k) == SlotOf(|buf|, from, n + k);
    }
  }

  class CyclicQueue {
    const cap: nat
    const arr: array<nat>
    var availableStart: nat
    var availableEnd: nat
    /** The words in use start at unwrapped position `from`. */
    ghost var from: nat
    ghost var live: seq<nat>

    ghost predicate Valid()
      reads this, arr
    {
      && 0 < cap == arr.Length && |live| <= cap
      && availableStart == SlotOf(cap, from, |live|)
      && availableEnd <= cap && availableEnd % cap == from % cap
      && Holds(arr[..], from, live)
    }

    constructor (cap: nat)
      requires cap > 0
      ensures Valid() && live == [] && this.cap == cap && fresh(arr)
    {
      this.cap := cap;
      arr := new nat[cap];
      availableStart, availableEnd := 0, cap;
      from, live := 0, [];
      new;
      ShiftOne(cap, 0);
    }

    /** Empties the buffer. */
    method Reset()
      requires Valid()
      modifies this`availableStart, this`availableEnd, this`from, this`live
      ensures Valid() && live == [] && availableStart == SlotOf(cap, from, 0)
    {
      availableStart, availableEnd := 0, cap;
      from, live := 0, [];
      ShiftOne(cap, 0);
    }

    /** Where the next words go. */
    function TryMax(): nat
      reads this
    {
      availableStart
    }

    /** The number of words that may be written; an empty queue reports none, like a full one. */
    method GetFree() returns (free: nat)
      requires Valid()
      ensures free == if live == [] then 0 else cap - |live|
    {
      free := (availableEnd + cap - availableStart) % cap;
      FreeArithmetic();
    }

    lemma LiveFits()
      requires Valid()
      ensures |live| <= cap
    {
    }

    lemma FreeArithmetic()
      requires Valid()
      ensures (availableEnd + cap - availableStart) % cap == if live == [] then 0 else cap - |live|
    {
      var f, s := from % cap, availableStart;
      WrapAdd(cap, from, |live|);
      var e := if availableEnd == cap then 0 else availableEnd;
      if availableEnd == cap { Unique(cap, cap, 1, 0); } else { Unique(cap, availableEnd, 0, availableEnd); }
      assert e == f;
      if f + |live| < cap {
        Unique(cap, f + |live|, 0, f + |live|);
        assert s == f + |live|;
      } else {
        Unique(cap, f + |live|, 1, f + |live| - cap);
        assert s == f + |live| - cap;
      }
      var x := availableEnd + cap - s;
      if x >= 2 * cap { Unique(cap, x, 2, x - 2 * cap); }
      else if x >= cap { Unique(cap, x, 1, x - cap); }
      else { Unique(cap, x, 0, x); }
    }

    /** `words` have been written behind the words in use, but not been claimed yet. */
    ghost predicate Staged(words: seq<nat>)
      requires arr.Length > 0
      reads this, arr
    {
      Holds(arr[..], from, live + words)
    }

    /** Writes words from `TryMax()` on, wrapping around; nothing in use is overwritten. */
    method Stage(words: seq<nat>)
      requires Valid() && |live| + |words| <= cap
      modifies arr
      ensures Valid() && Staged(words)
    {
      assert live + words[..0] == live;
      for k := 0 to |words|
        invariant Valid() && Staged(words[..k])
      {
        SlotAdd(cap, from, |live|, k);
        StageOne(words, k);
        arr[(TryMax() + k) % cap] := words[k];
      }
      assert words[..|words|] == words;
    }

    lemma StageOne(words: seq<nat>, k: nat)
      requires Valid() && k < |words| && |live| + |words| <= cap && Staged(words[..k])
      ensures Holds(arr[..][SlotOf(cap, from, |live| + k) := words[k]], from, live + words[..k + 1])
      ensures Holds(arr[..][SlotOf(cap, from, |live| + k) := words[k]], from, live)
    {
      HoldsWrite(arr[..], from, live + words[..k], words[k]);
      assert live + words[..k] + [words[k]] == live + words[..k + 1];
      assert forall i :: 0 <= i < |live| ==> (live + words[..k + 1])[i] == live[i];
    }

    /** Claims the staged words. */
    method Push(size: nat, ghost words: seq<nat>)
      requires Valid() && |words| == size && |live| + size <= cap && Staged(words)
      modifies this`availableStart, this`live
      ensures Valid() && live == old(live) + words
    {
      ghost var buf := arr[..];
      SlotAdd(cap, from, |live|, size);
      availableStart := (availableStart + size) % cap;
      live := live + words;
      assert arr[..] == buf;
    }

    /** Releases the oldest words. */
    method Pop(size: nat)
      requires Valid() && size <= |live|
      modifies this`availableEnd, this`from, this`live
      ensures Valid() && live == old(live)[size..] && from == old(from) + size
    {
      WrapAdd(cap, availableEnd, size);
      WrapAdd(cap, from, size);
      HoldsDrop(arr[..], from, live, size);
      availableEnd := (availableEnd + size) % cap;
      Unique(cap, availableEnd, 0, availableEnd);
      from, live := from + size, live[size..];
    }

    /** Claims the staged words and releases all older ones, whose place the new ones take. */
    method Replace(size: nat, ghost words: seq<nat>, used: nat)
      requires Valid() && |live| == used && |words| == size && used + size <= cap && Staged(words)
      modifies this`availableStart, this`availableEnd, this`from, this`live
      ensures Valid() && live == words && old(availableStart) == SlotOf(cap, from, 0)
    {
      Push(size, words);
      assert live[used..] == words;
      Pop(used);
    }

    /** Reads the word at offset `k` of the region that starts at slot `base`. */
    method Read(base: nat, k: nat) returns (w: nat)
      requires Valid() && base == SlotOf(cap, from, 0) && k < |live|
      ensures w == live[k]
    {
      WrapAdd(cap, from, k);
      assert SlotOf(cap, from, k) == (base + k) % cap;
      w := arr[(base + k) % cap];
    }
  }
}
